/** One step execution: guards, variable updates, rendering, sending, and the
    action the outcome calls for. */
module Executor {
  import opened Text
  import opened Values
  import opened Template
  import opened TemplateProperties
  import opened Session

  datatype Extraction = Extraction(name: string, path: string)

  datatype Derived = Derived(name: string, expression: string)

  datatype Handler = Handler(condition: string, action: string)

  datatype Step = Step(
    requestType: string,
    overrides: map<string, string>,
    extractions: seq<Extraction>,
    derived: seq<Derived>,
    assertions: seq<string>,
    guards: seq<string>,
    handlers: seq<Handler>,
    repeat: int,
    repeatUntil: string,
    maxRepeat: int,
    delaySec: int,
    delayJitterSec: int,
    useValidityTime: bool,
    validityScale: real)

  datatype StepResult = StepResult(skipped: bool, result: SendResult, assertions: seq<bool>, action: Action)

  datatype ExecError = GuardError | DerivedValueError | RenderError(e: Template.Error) | SendError

  /** The expression evaluator and CCA path extraction; None stands for an
      evaluation error. */
  datatype Rules = Rules(
    eval: (Vars, string) -> Option<Value>,
    extract: (CCA, string) -> Option<Value>)

  // ---- pure parts -----------------------------------------------------

  function MapRequestType(s: string): uint32 {
    var u := Upper(s);
    if u == "UPDATE" then UPDATE
    else if u == "TERMINATE" then TERMINATE
    else if u == "EVENT" then EVENT
    else INITIAL
  }

  function ParseAction(s: string): Action {
    var l := Lower(s);
    if l == "terminate" then Terminate
    else if l == "goto_terminate" then GotoTerminate
    else if l == "retry" then Retry
    else if l == "pause" then Pause
    else if l == "stop" then Stop
    else Continue
  }

  // Ok(true) skips the step.
  function EvaluateGuards(rules: Rules, vars: Vars, guards: seq<string>): (r: Result<bool, ExecError>)
    ensures r.Err? ==> r.error == GuardError
  {
    if guards == [] then Ok(false)
    else match rules.eval(vars, guards[0])
      case None => Err(GuardError)
      case Some(v) => if IsTruthy(v) then EvaluateGuards(rules, vars, guards[1..]) else Ok(true)
  }

  function EvaluateAssertions(rules: Rules, vars: Vars, assertions: seq<string>): seq<bool> {
    seq(|assertions|, i requires 0 <= i < |assertions| =>
      match rules.eval(vars, assertions[i])
      case None => false
      case Some(v) => IsTruthy(v))
  }

  // The first handler whose condition holds decides; errors are passed over.
  function HandlerAction(rules: Rules, vars: Vars, handlers: seq<Handler>): Action {
    if handlers == [] then Continue
    else match rules.eval(vars, handlers[0].condition)
      case None => HandlerAction(rules, vars, handlers[1..])
      case Some(v) =>
        if IsTruthy(v) then ParseAction(handlers[0].action) else HandlerAction(rules, vars, handlers[1..])
  }

  function MergeVars(base: Vars, overrides: map<string, string>): Vars {
    base + (map k | k in overrides :: Str(overrides[k]))
  }

  predicate Refused(resultCode: uint32) {
    resultCode != 0 && (resultCode < 2000 || resultCode > 2999)
  }

  predicate AllExhausted(cca: CCA) {
    && cca.mscc != []
    && forall i :: 0 <= i < |cca.mscc| ==>
         Refused(cca.mscc[i].resultCode) || cca.mscc[i].fuiAction == FUI_TERMINATE
  }

  function BuiltInAction(cca: CCA): Action {
    var byCode :=
      if Refused(cca.resultCode) then
        if cca.resultCode >= 5000 then Terminate else GotoTerminate
      else Continue;
    var byQuota := if byCode in {Continue, Terminate} && AllExhausted(cca) then GotoTerminate else byCode;
    if byQuota == Continue && cca.fuiAction == FUI_TERMINATE then GotoTerminate else byQuota
  }

  // A handler's decision stands; the built-in checks fill in for Continue.
  function Decide(handled: Action, cca: Option<CCA>): Action {
    if handled == Continue && cca.Some? then BuiltInAction(cca.value) else handled
  }

  /** What the built-in checks amount to: a session ends without a CCR-T only
      on a 5xxx code that leaves some rating group usable, goes to the CCR-T
      on any other refusal, exhaustion or final-unit TERMINATE, and otherwise
      continues. */
  lemma BuiltInActionMeaning(cca: CCA)
    ensures BuiltInAction(cca) == Terminate
            <==> cca.resultCode >= 5000 && !AllExhausted(cca)
    ensures BuiltInAction(cca) == GotoTerminate
            <==> || AllExhausted(cca)
                 || (Refused(cca.resultCode) && cca.resultCode < 5000)
                 || (!Refused(cca.resultCode) && cca.fuiAction == FUI_TERMINATE)
    ensures BuiltInAction(cca) in {Terminate, GotoTerminate, Continue}
  {
  }

  function Extracted(rules: Rules, vars: Vars, cca: CCA, extractions: seq<Extraction>): Vars {
    if extractions == [] then vars
    else
      var before := Extracted(rules, vars, cca, extractions[..|extractions| - 1]);
      var last := extractions[|extractions| - 1];
      match rules.extract(cca, last.path)
      case Some(v) => if v == Nil then before else before[last.name := v]
      case None => before
  }

  function DeriveAll(rules: Rules, vars: Vars, derived: seq<Derived>): (Vars, bool) {
    if derived == [] then (vars, true)
    else
      var (before, ok) := DeriveAll(rules, vars, derived[..|derived| - 1]);
      var last := derived[|derived| - 1];
      if !ok then (before, false)
      else match rules.eval(before, last.expression)
        case None => (before, false)
        case Some(v) => (before[last.name := v], true)
  }

  // Only the named variables may differ, and they are all present.
  ghost predicate RefreshedFrom(vars: Vars, vars': Vars, names: seq<string>) {
    && vars'.Keys == vars.Keys + (set k | k in names)
    && forall k :: k in vars && k !in names ==> vars'[k] == vars[k]
  }

  /** The variables a CCR is rendered from: extractions from the previous
      answer, then fresh generated values, then derived values in order. */
  ghost predicate Prepared(rules: Rules, vars: Vars, prev: Option<SendResult>, step: Step, names: seq<string>,
                           before: Vars, ok: bool)
  {
    var extracted :=
      if prev.Some? && prev.value.cca.Some? then Extracted(rules, vars, prev.value.cca.value, step.extractions) else vars;
    exists mid :: RefreshedFrom(extracted, mid, names) && DeriveAll(rules, mid, step.derived) == (before, ok)
  }

  function MergedFor(vars: Vars, step: Step): Vars {
    MergeVars(vars, step.overrides)["CC_REQUEST_TYPE" := Uint32(MapRequestType(step.requestType))]
  }

  // The running total of used units, kept as an int64.
  function WithTotal(vars: Vars, step: Step, merged: Vars): Vars {
    if step.requestType == "UPDATE" || step.requestType == "TERMINATE" then
      var used := if "USU_TOTAL" in merged then SignedOrZero(merged["USU_TOTAL"]) else 0;
      var total := if "TOTAL_USU" in vars && vars["TOTAL_USU"].Int64? then vars["TOTAL_USU"].i64 else 0;
      vars["TOTAL_USU" := Int64(Wrap64(total + used))]
    else vars
  }

  /** The variables once an exchange is accounted for. */
  function Accounted(vars: Vars, step: Step, merged: Vars, cca: Option<CCA>): Vars {
    WithTotal(if cca.Some? then Absorbed(vars, cca.value) else vars, step, merged)
  }

  // ---- grants across an execution -------------------------------------

  /** Every charged position has its grant variable, and it holds what the
      last answer granted there (nothing before the first answer). */
  ghost predicate Tracks(vars: Vars, lastCCA: Option<CCA>, input: Input) {
    forall n :: 1 <= n <= Slots(input) ==>
      && GrantKey(input.unitType, n) in vars
      && vars[GrantKey(input.unitType, n)] == StoredGrant(LastGrant(lastCCA, input.unitType, n))
  }

  ghost predicate IsGrantVar(name: string, input: Input) {
    exists n :: 1 <= n <= Slots(input) && name == GrantKey(input.unitType, n)
  }

  /** The step itself writes none of the grant variables. */
  ghost predicate LeavesGrants(step: Step, input: Input) {
    && (forall i :: 0 <= i < |step.extractions| ==> !IsGrantVar(step.extractions[i].name, input))
    && (forall i :: 0 <= i < |step.derived| ==> !IsGrantVar(step.derived[i].name, input))
    && (forall k :: k in step.overrides ==> !IsGrantVar(k, input))
  }

  ghost predicate SameGrants(vars: Vars, vars': Vars, input: Input) {
    forall k :: IsGrantVar(k, input) ==> (k in vars <==> k in vars') && (k in vars ==> vars'[k] == vars[k])
  }

  /** The charged positions of a CCR report exactly what may be reported
      against the given answer, grant by grant. */
  ghost predicate WithinGrants(e: Event, lastCCA: Option<CCA>, input: Input, show: Value -> string)
    requires e.Sent?
  {
    |e.ccr.extraAVPs| >= |input.tree| &&
    forall n :: 1 <= n <= Slots(input) ==> ReportsWithin(e, LastGrant(lastCCA, input.unitType, n), input, show, n)
  }

  ghost predicate ReportsWithin(e: Event, granted: uint64, input: Input, show: Value -> string, n: nat)
    requires e.Sent? && 1 <= n <= Slots(input) && |e.ccr.extraAVPs| >= |input.tree|
  {
    var services := e.ccr.extraAVPs[|input.tree|..];
    var used := Usage(input.mscc[n - 1], e.values, show);
    (Reports(ServicePart(input.model, services, n)) == ReportOf(input.unitType, Allowed(used, granted)))
    <==> (granted < TWO_63 || used <= granted)
  }

  /** Every UPDATE and TERMINATE of the log stays within the grants of the
      answer received just before it. */
  ghost predicate CreditSafe(log: Log, input: Input, show: Value -> string) {
    forall i :: 0 <= i < |log| && log[i].Sent? && log[i].ccr.requestType in {UPDATE, TERMINATE} ==>
      WithinGrants(log[i], Summarise(log[..i]).lastCCA, input, show)
  }

  lemma ExtendCreditSafe(log: Log, e: Event, input: Input, show: Value -> string)
    requires CreditSafe(log, input, show)
    requires e.Sent? && e.ccr.requestType in {UPDATE, TERMINATE} ==>
               WithinGrants(e, Summarise(log).lastCCA, input, show)
    ensures CreditSafe(log + [e], input, show)
  {
    var longer := log + [e];
    assert longer[..|log|] == log;
    forall i | 0 <= i < |longer| && longer[i].Sent? && longer[i].ccr.requestType in {UPDATE, TERMINATE}
      ensures WithinGrants(longer[i], Summarise(longer[..i]).lastCCA, input, show)
    {
      if i < |log| {
        assert longer[..i] == log[..i];
      }
    }
  }

  lemma GrantVarIsGroupVar(name: string, input: Input)
    requires IsGrantVar(name, input)
    ensures |name| >= 2 && name[..2] == "RG"
  {
    var n :| 1 <= n <= Slots(input) && name == GrantKey(input.unitType, n);
  }

  lemma AbsorbedTracks(vars: Vars, cca: CCA, lastCCA: Option<CCA>, input: Input)
    requires Tracks(vars, lastCCA, input)
    ensures Tracks(Absorbed(vars, cca), Some(cca), input)
  {
    hide Absorbed, GrantKey, GrantIn;
    forall n | 1 <= n <= Slots(input)
      ensures GrantKey(input.unitType, n) in Absorbed(vars, cca)
      ensures Absorbed(vars, cca)[GrantKey(input.unitType, n)] == StoredGrant(LastGrant(Some(cca), input.unitType, n))
    {
      AbsorbedGrants(vars, cca, input.unitType, n);
    }
  }

  lemma OtherVarTracks(vars: Vars, name: string, v: Value, lastCCA: Option<CCA>, input: Input)
    requires Tracks(vars, lastCCA, input)
    requires |name| >= 2 && name[..2] != "RG"
    ensures Tracks(vars[name := v], lastCCA, input)
  {
    hide GrantKey, StoredGrant, LastGrant;
    forall n | 1 <= n <= Slots(input)
      ensures GrantKey(input.unitType, n) != name
    {
      GrantVarIsGroupVar(GrantKey(input.unitType, n), input);
    }
  }

  lemma AccountedTracks(vars: Vars, step: Step, merged: Vars, cca: Option<CCA>, lastCCA: Option<CCA>, input: Input)
    requires Tracks(vars, lastCCA, input)
    ensures Tracks(Accounted(vars, step, merged, cca), if cca.Some? then cca else lastCCA, input)
  {
    hide Tracks, Absorbed, SignedOrZero, Wrap64;
    if cca.Some? {
      AbsorbedTracks(vars, cca.value, lastCCA, input);
    }
    var absorbed := if cca.Some? then Absorbed(vars, cca.value) else vars;
    var after := WithTotal(absorbed, step, merged);
    if after != absorbed {
      assert "TOTAL_USU"[..2] == "TO";
      OtherVarTracks(absorbed, "TOTAL_USU", after["TOTAL_USU"], if cca.Some? then cca else lastCCA, input);
    }
  }

  /** A CCR rendered from tracked variables stays within the grants. */
  lemma RenderedWithinGrants(e: Event, vars: Vars, overrides: map<string, string>, lastCCA: Option<CCA>, input: Input, codec: Codec)
    requires e.Sent? && e.ccr.requestType in {UPDATE, TERMINATE} && Metered(input.unitType)
    requires Tracks(vars, lastCCA, input) && forall k :: k in overrides ==> !IsGrantVar(k, input)
    requires e.values == MergeVars(vars, overrides)["CC_REQUEST_TYPE" := Uint32(e.ccr.requestType)]
    requires Render(input, e.values, codec) == Ok(e.ccr.extraAVPs)
    ensures WithinGrants(e, lastCCA, input, codec.show)
  {
    hide Render, Reports, ReportOf, Allowed, Usage, ServicePart, GrantKey, LastGrant, StoredGrant, MergeVars, RequestType;
    RenderedAtLeastTree(input, e.values, codec);
    forall n | 1 <= n <= Slots(input)
      ensures ReportsWithin(e, LastGrant(lastCCA, input.unitType, n), input, codec.show, n)
    {
      var key := GrantKey(input.unitType, n);
      GrantVarIsGroupVar(key, input);
      assert "CC_REQUEST_TYPE"[..2] == "CC";
      MergedLookup(vars, overrides, e.ccr.requestType, key);
      RenderedReport(input, e.values, codec, n, LastGrant(lastCCA, input.unitType, n));
    }
  }

  lemma MergedLookup(vars: Vars, overrides: map<string, string>, reqType: uint32, key: string)
    requires key in vars && key !in overrides && key != "CC_REQUEST_TYPE"
    ensures var merged := MergeVars(vars, overrides)["CC_REQUEST_TYPE" := Uint32(reqType)];
      key in merged && merged[key] == vars[key] && RequestType(merged) == reqType
  {
  }

  lemma RenderedAtLeastTree(input: Input, values: Vars, codec: Codec)
    requires Render(input, values, codec).Ok?
    ensures |Render(input, values, codec).value| >= |input.tree|
  {
  }

  // ---- what an execution does -----------------------------------------

  /** A scenario as the executor holds it. */
  datatype Scenario = Scenario(
    input: Input,
    refreshed: seq<string>,       // variables declared refresh: per-send
    codec: Codec,
    rules: Rules)

  /** The CCR a step sends: Session-Id and number in force, AVPs rendered from
      the merged variables. */
  ghost predicate Sends(s: Scenario, pre: Snapshot, before: Vars, step: Step, e: Event) {
    && e.Sent?
    && e.values == MergedFor(before, step)
    && Render(s.input, e.values, s.codec) == Ok(e.ccr.extraAVPs)
    && e.ccr == CCR(pre.sessionID, MapRequestType(step.requestType), pre.ccRequestNumber,
                    pre.serviceContextID, pre.destRealm, pre.destHost, e.ccr.extraAVPs)
  }

  /** One exchange from prepared variables, whichever way it ends. The number
      moves on only when the send succeeds. */
  ghost predicate Exchanges(s: Scenario, pre: Snapshot, step: Step, post: Snapshot, r: Result<StepResult, ExecError>) {
    if r.Err? && r.error.RenderError? then
      && Render(s.input, MergedFor(pre.vars, step), s.codec) == Err(r.error.e)
      && post == pre
    else
      && |post.log| == |pre.log| + 1
      && var e := post.log[|pre.log|];
      && Sends(s, pre, pre.vars, step, e)
      && if e.failed then
           r == Err(SendError) && post == pre.(log := pre.log + [e])
         else
           && r.Ok? && !r.value.skipped && r.value.result.cca == e.answer
           && post == pre.(ccRequestNumber := post.ccRequestNumber, vars := post.vars, log := pre.log + [e])
           && post.ccRequestNumber == Wrap32(pre.ccRequestNumber + 1)
           && Settles(s, pre.vars, step, e.values, e.answer, post.vars, post.ccRequestNumber,
                      r.value.assertions, r.value.action)
  }

  /** What a successful exchange leaves in the variables, and what it decides. */
  ghost predicate Settles(s: Scenario, vars: Vars, step: Step, merged: Vars, cca: Option<CCA>,
                          vars': Vars, next: uint32, assertions: seq<bool>, action: Action)
  {
    var after := Accounted(vars, step, merged, cca);
    && vars' == after["CC_REQUEST_NUMBER" := Uint32(next)]
    && assertions == EvaluateAssertions(s.rules, after, step.assertions)
    && action == Decide(HandlerAction(s.rules, after, step.handlers), cca)
  }

  /** Everything one execution does, outcome by outcome. `before` is the state
      of the variables once the step is prepared. A skipped step changes
      nothing. */
  ghost predicate Performs(s: Scenario, pre: Snapshot, prev: Option<SendResult>, step: Step, before: Vars,
                           post: Snapshot, r: Result<StepResult, ExecError>)
  {
    match EvaluateGuards(s.rules, pre.vars, step.guards)
    case Err(_) => r == Err(GuardError) && post == pre
    case Ok(true) => r.Ok? && r.value.skipped && r.value.action == Continue && post == pre
    case Ok(false) =>
      && Prepared(s.rules, pre.vars, prev, step, s.refreshed, before, r != Err(DerivedValueError))
      && (if r == Err(DerivedValueError) then post == pre.(vars := before)
          else Exchanges(s, pre.(vars := before), step, post, r))
  }

  function OutcomeOf(r: Result<StepResult, ExecError>): Outcome {
    match r
    case Err(_) => StepErred
    case Ok(v) => if v.skipped then StepSkipped else Took(v.action)
  }

  /** The same with its marks: every execution opens with StepExecuted and
      closes with what it concluded. */
  ghost predicate Executes(s: Scenario, idx: nat, pre: Snapshot, prev: Option<SendResult>, step: Step, before: Vars,
                           post: Snapshot, r: Result<StepResult, ExecError>)
  {
    && post.log != []
    && post.log[|post.log| - 1] == Concluded(OutcomeOf(r))
    && Performs(s, Noted(pre, StepExecuted(idx)), prev, step, before, post.(log := post.log[..|post.log| - 1]), r)
  }

  // What an outcome means for the log: a CCR that was answered, none for a
  // skipped step, and for an error none or one that failed.
  ghost predicate Grew(log: Log, log': Log, step: Step, r: Result<StepResult, ExecError>) {
    if log' == log then r.Err? || (r.value.skipped && r.value.action == Continue)
    else
      && |log'| == |log| + 1 && log' == log + [log'[|log|]] && log'[|log|].Sent?
      && log'[|log|].ccr.requestType == MapRequestType(step.requestType)
      && (if log'[|log|].failed then r.Err? else r.Ok? && !r.value.skipped && r.value.result.cca == log'[|log|].answer)
  }

  lemma ExchangeSends(s: Scenario, pre: Snapshot, step: Step, post: Snapshot, r: Result<StepResult, ExecError>)
    requires Exchanges(s, pre, step, post, r)
    ensures Grew(pre.log, post.log, step, r)
  {
    hide Render, Settles, MergedFor, MapRequestType, Wrap32, RequestType;
    if post != pre && |post.log| == |pre.log| + 1 {
      assert post.log == pre.log + [post.log[|pre.log|]];
    }
  }

  lemma PerformanceSends(s: Scenario, pre: Snapshot, prev: Option<SendResult>, step: Step, before: Vars,
                         post: Snapshot, r: Result<StepResult, ExecError>)
    requires Performs(s, pre, prev, step, before, post, r)
    ensures Grew(pre.log, post.log, step, r)
  {
    hide EvaluateGuards, Prepared, Exchanges, MapRequestType;
    if EvaluateGuards(s.rules, pre.vars, step.guards) == Ok(false) && r != Err(DerivedValueError) {
      ExchangeSends(s, pre.(vars := before), step, post, r);
    }
  }

  /** An execution logs exactly one StepExecuted, at most one CCR, of the step's
      request type and directly after it, and one conclusion: the CCR is
      answered exactly when the execution neither errs nor skips. */
  lemma ExecutionSends(s: Scenario, idx: nat, pre: Snapshot, prev: Option<SendResult>, step: Step, before: Vars,
                       post: Snapshot, r: Result<StepResult, ExecError>)
    requires Executes(s, idx, pre, prev, step, before, post, r)
    ensures post.log != [] && post.log[|post.log| - 1] == Concluded(OutcomeOf(r))
    ensures Grew(pre.log + [StepExecuted(idx)], post.log[..|post.log| - 1], step, r)
  {
    hide Performs, Grew;
    PerformanceSends(s, Noted(pre, StepExecuted(idx)), prev, step, before, post.(log := post.log[..|post.log| - 1]), r);
  }

  // The step and the generators write none of the grant variables.
  ghost predicate GrantsUntouchedBy(s: Scenario, step: Step) {
    LeavesGrants(step, s.input) && forall i :: 0 <= i < |s.refreshed| ==> !IsGrantVar(s.refreshed[i], s.input)
  }

  // No step or generator of the scenario writes a grant variable.
  ghost predicate Untouched(s: Scenario, steps: seq<Step>) {
    && Metered(s.input.unitType)
    && forall i :: 0 <= i < |steps| ==> GrantsUntouchedBy(s, steps[i])
  }

  // The variables hold the last answer's grants and no CCR so far exceeded its own.
  ghost predicate WithinCredit(s: Scenario, now: Snapshot) {
    Tracks(now.vars, Summarise(now.log).lastCCA, s.input) && CreditSafe(now.log, s.input, s.codec.show)
  }

  // An event other than a send leaves the credit accounting as it is.
  lemma NoteKeepsCredit(s: Scenario, pre: Snapshot, post: Snapshot)
    requires |post.log| == |pre.log| + 1 && post.log == pre.log + [post.log[|pre.log|]] && !post.log[|pre.log|].Sent?
    requires post.vars == pre.vars || post.vars == pre.vars["CC_REQUEST_NUMBER" := Uint32(0)]
    ensures WithinCredit(s, pre) ==> WithinCredit(s, post)
  {
    hide Tracks, CreditSafe;
    if WithinCredit(s, pre) {
      var e := post.log[|pre.log|];
      Extend(pre.log, e);
      ExtendCreditSafe(pre.log, e, s.input, s.codec.show);
      assert "CC_REQUEST_NUMBER"[..2] == "CC";
      OtherVarTracks(pre.vars, "CC_REQUEST_NUMBER", Uint32(0), Summarise(pre.log).lastCCA, s.input);
    }
  }

  lemma PerformanceKeepsCredit(s: Scenario, pre: Snapshot, prev: Option<SendResult>, step: Step, before: Vars,
                               post: Snapshot, r: Result<StepResult, ExecError>)
    requires Performs(s, pre, prev, step, before, post, r)
    requires Metered(s.input.unitType) && GrantsUntouchedBy(s, step) && WithinCredit(s, pre)
    ensures WithinCredit(s, post)
  {
    hide EvaluateGuards, Prepared, Exchanges, CreditSafe, SameGrants, Tracks;
    if post != pre {
      var lastCCA := Summarise(pre.log).lastCCA;
      PreparedKeepsGrants(s.rules, pre.vars, prev, step, s.refreshed, before, r != Err(DerivedValueError), s.input);
      SameGrantsTrack(pre.vars, before, lastCCA, s.input);
      if r != Err(DerivedValueError) {
        ExchangeKeepsCredit(s, pre.(vars := before), step, post, r);
      }
    }
  }

  /** Executing a step keeps every usage report within its grant and the grant
      variables up to date, whatever the outcome. */
  lemma ExecutionKeepsCredit(s: Scenario, idx: nat, pre: Snapshot, prev: Option<SendResult>, step: Step, before: Vars,
                             post: Snapshot, r: Result<StepResult, ExecError>)
    requires Executes(s, idx, pre, prev, step, before, post, r)
    requires Metered(s.input.unitType) && GrantsUntouchedBy(s, step) && WithinCredit(s, pre)
    ensures WithinCredit(s, post)
  {
    hide Performs, WithinCredit, GrantsUntouchedBy;
    var begun, closed := Noted(pre, StepExecuted(idx)), post.(log := post.log[..|post.log| - 1]);
    NoteKeepsCredit(s, pre, begun);
    PerformanceKeepsCredit(s, begun, prev, step, before, closed, r);
    assert post.log == closed.log + [post.log[|closed.log|]];
    NoteKeepsCredit(s, closed, post);
  }

  // The CCR of a step reports within the grants of the last answer.
  lemma SentWithinGrants(s: Scenario, pre: Snapshot, step: Step, e: Event, lastCCA: Option<CCA>)
    requires Sends(s, pre, pre.vars, step, e) && e.ccr.requestType in {UPDATE, TERMINATE}
    requires Metered(s.input.unitType) && LeavesGrants(step, s.input) && Tracks(pre.vars, lastCCA, s.input)
    ensures WithinGrants(e, lastCCA, s.input, s.codec.show)
  {
    hide Render, Tracks, WithinGrants, MapRequestType;
    RenderedWithinGrants(e, pre.vars, step.overrides, lastCCA, s.input, s.codec);
  }

  lemma SentKeepsCreditSafe(s: Scenario, pre: Snapshot, step: Step, e: Event)
    requires Sends(s, pre, pre.vars, step, e)
    requires Metered(s.input.unitType) && LeavesGrants(step, s.input) && WithinCredit(s, pre)
    ensures CreditSafe(pre.log + [e], s.input, s.codec.show)
  {
    hide Sends, Tracks, CreditSafe, WithinGrants, LeavesGrants, Summarise;
    SendsSends(s, pre, step, e);
    if e.ccr.requestType in {UPDATE, TERMINATE} {
      SentWithinGrants(s, pre, step, e, Summarise(pre.log).lastCCA);
    }
    ExtendCreditSafe(pre.log, e, s.input, s.codec.show);
  }

  lemma SendsSends(s: Scenario, pre: Snapshot, step: Step, e: Event)
    requires Sends(s, pre, pre.vars, step, e)
    ensures e.Sent?
  {
  }

  // A settled answer leaves the grant variables at its grants.
  lemma SettledTracks(s: Scenario, vars: Vars, step: Step, merged: Vars, cca: Option<CCA>, vars': Vars, next: uint32,
                      assertions: seq<bool>, action: Action, lastCCA: Option<CCA>)
    requires Settles(s, vars, step, merged, cca, vars', next, assertions, action)
    requires Tracks(vars, lastCCA, s.input)
    ensures Tracks(vars', if cca.Some? then cca else lastCCA, s.input)
  {
    hide Accounted, Tracks, EvaluateAssertions, HandlerAction, Decide;
    AccountedTracks(vars, step, merged, cca, lastCCA, s.input);
    assert "CC_REQUEST_NUMBER"[..2] == "CC";
    OtherVarTracks(Accounted(vars, step, merged, cca), "CC_REQUEST_NUMBER", Uint32(next),
                   if cca.Some? then cca else lastCCA, s.input);
  }

  lemma ExchangeKeepsCredit(s: Scenario, pre: Snapshot, step: Step, post: Snapshot, r: Result<StepResult, ExecError>)
    requires Exchanges(s, pre, step, post, r)
    requires Metered(s.input.unitType) && LeavesGrants(step, s.input) && WithinCredit(s, pre)
    ensures WithinCredit(s, post)
  {
    hide Render, MergedFor, Sends, Settles, CreditSafe, Tracks, LeavesGrants, Summarise, Wrap32;
    if |post.log| > |pre.log| {
      var e, lastCCA := post.log[|pre.log|], Summarise(pre.log).lastCCA;
      SendsSends(s, pre, step, e);
      SentKeepsCreditSafe(s, pre, step, e);
      LastAnswer(pre.log, e);
      if !e.failed {
        SettledTracks(s, pre.vars, step, e.values, e.answer, post.vars, post.ccRequestNumber,
                      r.value.assertions, r.value.action, lastCCA);
      }
    }
  }

  lemma LastAnswer(log: Log, e: Event)
    requires e.Sent?
    ensures Summarise(log + [e]).lastCCA == if !e.failed && e.answer.Some? then e.answer else Summarise(log).lastCCA
  {
    Extend(log, e);
  }

  // ---- the executor ---------------------------------------------------

  class StepExecutor {
    const scenario: Scenario

    constructor (scenario: Scenario)
      ensures this.scenario == scenario
    {
      this.scenario := scenario;
    }

    method ApplyExtractions(sc: SessionContext, cca: CCA, extractions: seq<Extraction>)
      modifies sc`vars
      ensures sc.vars == Extracted(scenario.rules, old(sc.vars), cca, extractions)
    {
      var i := 0;
      while i < |extractions|
        invariant 0 <= i <= |extractions|
        invariant sc.vars == Extracted(scenario.rules, old(sc.vars), cca, extractions[..i])
      {
        var v := scenario.rules.extract(cca, extractions[i].path);
        if v.Some? && v.value != Nil {
          sc.vars := sc.vars[extractions[i].name := v.value];
        }
        assert extractions[..i + 1][..i] == extractions[..i];
        i := i + 1;
      }
      assert extractions[..i] == extractions;
    }

    // New values for the per-send variables, chosen by their generators.
    method Refresh(sc: SessionContext)
      modifies sc`vars
      ensures RefreshedFrom(old(sc.vars), sc.vars, scenario.refreshed)
    {
      var i := 0;
      while i < |scenario.refreshed|
        invariant 0 <= i <= |scenario.refreshed|
        invariant sc.vars.Keys == old(sc.vars).Keys + (set k | k in scenario.refreshed[..i])
        invariant forall k :: k in old(sc.vars) && k !in scenario.refreshed ==> sc.vars[k] == old(sc.vars)[k]
      {
        var v: Value := *;
        sc.vars := sc.vars[scenario.refreshed[i] := v];
        assert scenario.refreshed[..i + 1] == scenario.refreshed[..i] + [scenario.refreshed[i]];
        i := i + 1;
      }
      assert scenario.refreshed[..i] == scenario.refreshed;
    }

    // Each expression sees the values derived before it.
    method ApplyDerivedValues(sc: SessionContext, derived: seq<Derived>) returns (ok: bool)
      modifies sc`vars
      ensures (sc.vars, ok) == DeriveAll(scenario.rules, old(sc.vars), derived)
    {
      var i := 0;
      while i < |derived|
        invariant 0 <= i <= |derived|
        invariant (sc.vars, true) == DeriveAll(scenario.rules, old(sc.vars), derived[..i])
      {
        var v := scenario.rules.eval(sc.vars, derived[i].expression);
        assert derived[..i + 1][..i] == derived[..i];
        if v.None? {
          DeriveFails(scenario.rules, old(sc.vars), derived, i + 1);
          return false;
        }
        sc.vars := sc.vars[derived[i].name := v.value];
        i := i + 1;
      }
      assert derived[..i] == derived;
      return true;
    }

    method Prepare(sc: SessionContext, prev: Option<SendResult>, step: Step) returns (ok: bool)
      modifies sc`vars
      ensures Prepared(scenario.rules, old(sc.vars), prev, step, scenario.refreshed, sc.vars, ok)
    {
      if prev.Some? && prev.value.cca.Some? {
        ApplyExtractions(sc, prev.value.cca.value, step.extractions);
      }
      Refresh(sc);
      ghost var mid := sc.vars;
      ok := ApplyDerivedValues(sc, step.derived);
      assert DeriveAll(scenario.rules, mid, step.derived) == (sc.vars, ok);
    }

    // Takes a successful exchange into the session: variables, then the number.
    method Settle(sc: SessionContext, step: Step, merged: Vars, cca: Option<CCA>)
      returns (assertions: seq<bool>, action: Action)
      modifies sc`vars, sc`ccRequestNumber
      ensures sc.ccRequestNumber == Wrap32(old(sc.ccRequestNumber) + 1)
      ensures Settles(scenario, old(sc.vars), step, merged, cca, sc.vars, sc.ccRequestNumber, assertions, action)
    {
      hide Absorbed, EvaluateAssertions, HandlerAction, BuiltInAction, SignedOrZero, Wrap64;
      if cca.Some? {
        sc.AutoUpdateVars(cca.value);
      }
      if step.requestType == "UPDATE" || step.requestType == "TERMINATE" {
        var used := if "USU_TOTAL" in merged then SignedOrZero(merged["USU_TOTAL"]) else 0;
        var total := if "TOTAL_USU" in sc.vars && sc.vars["TOTAL_USU"].Int64? then sc.vars["TOTAL_USU"].i64 else 0;
        sc.vars := sc.vars["TOTAL_USU" := Int64(Wrap64(total + used))];
      }
      assertions := EvaluateAssertions(scenario.rules, sc.vars, step.assertions);
      action := Decide(HandlerAction(scenario.rules, sc.vars, step.handlers), cca);
      sc.ccRequestNumber := Wrap32(sc.ccRequestNumber + 1);
      sc.vars := sc.vars["CC_REQUEST_NUMBER" := Uint32(sc.ccRequestNumber)];
    }

    // Renders, sends and settles the CCR of a prepared step.
    method Exchange(sc: SessionContext, step: Step) returns (r: Result<StepResult, ExecError>)
      requires sc.Valid()
      modifies sc
      ensures sc.Valid() && sc.state == old(sc.state)
      ensures Exchanges(scenario, old(sc.Now()), step, sc.Now(), r)
    {
      hide Render, Settles, MapRequestType, Numbered, Wrap32, Summarise;
      var reqType := MapRequestType(step.requestType);
      var merged := MergeVars(sc.vars, step.overrides);
      merged := merged["CC_REQUEST_TYPE" := Uint32(reqType)];
      var avps := Render(scenario.input, merged, scenario.codec);
      if avps.Err? {
        return Err(RenderError(avps.error));
      }
      var ccr := CCR(sc.sessionID, reqType, sc.ccRequestNumber, sc.serviceContextID, sc.destRealm, sc.destHost, avps.value);
      var result := sc.Send(ccr, merged);
      if result.metrics.failed {
        return Err(SendError);
      }
      var assertions, action := Settle(sc, step, merged, result.cca);
      WrapNext(old(Summarise(sc.log)).answered);
      return Ok(StepResult(false, result, assertions, action));
    }

    /** Executes step idx of its scenario, with the marks of an execution. */
    method Execute(sc: SessionContext, prev: Option<SendResult>, step: Step, ghost idx: nat)
      returns (r: Result<StepResult, ExecError>, ghost before: Vars)
      requires sc.Valid()
      modifies sc
      ensures sc.Valid() && sc.state == old(sc.state)
      ensures Executes(scenario, idx, old(sc.Now()), prev, step, before, sc.Now(), r)
    {
      hide Performs, Summarise, Numbered;
      sc.Note(StepExecuted(idx));
      r, before := Perform(sc, prev, step);
      ghost var closed := sc.Now();
      sc.Note(Concluded(OutcomeOf(r)));
      assert sc.log[..|sc.log| - 1] == closed.log;
    }

    // What an execution does between its marks.
    method Perform(sc: SessionContext, prev: Option<SendResult>, step: Step)
      returns (r: Result<StepResult, ExecError>, ghost before: Vars)
      requires sc.Valid()
      modifies sc
      ensures sc.Valid() && sc.state == old(sc.state)
      ensures Performs(scenario, old(sc.Now()), prev, step, before, sc.Now(), r)
    {
      hide EvaluateGuards, Prepared;
      before := sc.vars;
      var skip := EvaluateGuards(scenario.rules, sc.vars, step.guards);
      if skip.Err? {
        return Err(skip.error), before;
      }
      if skip.value {
        var nothing: SendResult := *;
        return Ok(StepResult(true, nothing, [], Continue)), before;
      }
      var ok := Prepare(sc, prev, step);
      before := sc.vars;
      if !ok {
        return Err(DerivedValueError), before;
      }
      r := Exchange(sc, step);
    }
  }

  lemma WrapNext(n: nat)
    ensures Wrap32(Wrap32(n) + 1) == Wrap32(n + 1)
  {
  }

  lemma {:induction false} ExtractedKeepsOthers(rules: Rules, vars: Vars, cca: CCA, extractions: seq<Extraction>)
    ensures forall k :: (forall i :: 0 <= i < |extractions| ==> extractions[i].name != k) ==>
      (k in vars <==> k in Extracted(rules, vars, cca, extractions))
      && (k in vars ==> Extracted(rules, vars, cca, extractions)[k] == vars[k])
  {
    if extractions != [] {
      ExtractedKeepsOthers(rules, vars, cca, extractions[..|extractions| - 1]);
    }
  }

  lemma {:induction false} DeriveFails(rules: Rules, vars: Vars, derived: seq<Derived>, n: nat)
    requires n <= |derived| && !DeriveAll(rules, vars, derived[..n]).1
    ensures DeriveAll(rules, vars, derived) == DeriveAll(rules, vars, derived[..n])
    decreases |derived| - n
  {
    if n == |derived| {
      assert derived[..n] == derived;
    } else {
      assert derived[..n + 1][..n] == derived[..n];
      DeriveFails(rules, vars, derived, n + 1);
    }
  }

  lemma {:induction false} DerivedKeepsOthers(rules: Rules, vars: Vars, derived: seq<Derived>)
    ensures forall k :: (forall i :: 0 <= i < |derived| ==> derived[i].name != k) ==>
      (k in vars <==> k in DeriveAll(rules, vars, derived).0)
      && (k in vars ==> DeriveAll(rules, vars, derived).0[k] == vars[k])
  {
    if derived != [] {
      DerivedKeepsOthers(rules, vars, derived[..|derived| - 1]);
    }
  }

  /** Preparing a step that writes no grant variable leaves them all alone. */
  lemma PreparedKeepsGrants(rules: Rules, vars: Vars, prev: Option<SendResult>, step: Step, names: seq<string>,
                            before: Vars, ok: bool, input: Input)
    requires Prepared(rules, vars, prev, step, names, before, ok)
    requires LeavesGrants(step, input) && forall i :: 0 <= i < |names| ==> !IsGrantVar(names[i], input)
    ensures SameGrants(vars, before, input)
  {
    var extracted :=
      if prev.Some? && prev.value.cca.Some? then Extracted(rules, vars, prev.value.cca.value, step.extractions) else vars;
    var mid :| RefreshedFrom(extracted, mid, names) && DeriveAll(rules, mid, step.derived) == (before, ok);
    if prev.Some? && prev.value.cca.Some? {
      ExtractedKeepsOthers(rules, vars, prev.value.cca.value, step.extractions);
    }
    DerivedKeepsOthers(rules, mid, step.derived);
  }

  lemma SameGrantsTrack(vars: Vars, vars': Vars, lastCCA: Option<CCA>, input: Input)
    requires SameGrants(vars, vars', input) && Tracks(vars, lastCCA, input)
    ensures Tracks(vars', lastCCA, input)
  {
    forall n | 1 <= n <= Slots(input)
      ensures GrantKey(input.unitType, n) in vars'
      ensures vars'[GrantKey(input.unitType, n)] == StoredGrant(LastGrant(lastCCA, input.unitType, n))
    {
      assert IsGrantVar(GrantKey(input.unitType, n), input);
    }
  }
}
