/** The session context of one scenario run: Diameter session state, live
    variables, and a ghost log of everything the run does. */
module Session {
  import opened Text
  import opened Values
  import opened Template

  // ---- messages -------------------------------------------------------

  datatype MSCCBlock = MSCCBlock(
    serviceIdentifier: uint32,
    ratingGroup: uint32,
    resultCode: uint32,
    grantedTime: uint32,
    grantedTotalOctets: uint64,
    validityTime: uint32,
    fuiAction: int32)

  datatype CCA = CCA(
    sessionID: string,
    resultCode: uint32,
    grantedTime: uint32,
    grantedTotalOctets: uint64,
    validityTime: uint32,
    fuiAction: int32,
    mscc: seq<MSCCBlock>)

  datatype CCR = CCR(
    sessionID: string,
    requestType: uint32,
    requestNumber: uint32,
    serviceContextID: string,
    destinationRealm: string,
    destinationHost: string,
    extraAVPs: seq<AVP>)

  const FUI_TERMINATE: int32 := 0

  datatype SendMetrics = SendMetrics(rtt: nat, failed: bool)

  datatype SendResult = SendResult(cca: Option<CCA>, metrics: SendMetrics)

  datatype State = Active | Paused | Completed | Terminated | Error

  /** What the outcome of a step calls for. */
  datatype Action = Continue | Terminate | Retry | Pause | Stop | GotoTerminate

  // How a wait ends, or what a check of the control channels finds.
  datatype Signal = Elapsed | StopRequested | InterruptRequested | Cancelled

  // ---- the log --------------------------------------------------------

  datatype Outcome = Took(action: Action) | StepSkipped | StepErred

  /** An execution of a step is logged as StepExecuted, the CCR if it sends one,
      and Concluded. A wait is logged where it begins and a signal where it is
      heard. */
  datatype Event =
    | RunStarted
    | SessionReset(sessionID: string)
    | StepVisited(step: nat)
    | StepExecuted(step: nat)
    | Sent(ccr: CCR, values: Vars, answer: Option<CCA>, failed: bool)
    | Concluded(outcome: Outcome)
    | Waited(delay: int)
    | Signalled(signal: Signal)
    | PassEnded(iteration: nat)

  type Log = seq<Event>

  /** One pass over the steps. It is broken when something in it ends a run; a
      jump to the last step that has arrived there makes all but an error
      harmless. */
  datatype Pass = Pass(
    visited: seq<nat>,            // steps in the order of their visits
    jumped: bool,                 // a step called for the last one
    landed: bool,                 // the step now visited comes after that
    broken: bool)

  const NEW_PASS := Pass([], false, false, false)

  // Cancellations and errors end a run wherever they come.
  predicate IsFatal(e: Event) {
    e == Signalled(Cancelled) || e == Concluded(StepErred)
  }

  predicate EndsRun(e: Event) {
    IsFatal(e) || e.Signalled? || (e.Concluded? && e.outcome in {Took(Terminate), Took(Pause), Took(Stop)})
  }

  // A conclusion or a signal as part of a pass.
  function Heard(p: Pass, e: Event): Pass {
    p.(jumped := p.jumped || e == Concluded(Took(GotoTerminate)),
       broken := p.broken || (if p.landed then IsFatal(e) else EndsRun(e)))
  }

  /** What a log says about the current Diameter session and the current run. */
  datatype Summary = Summary(
    sessionID: string,            // Session-Id in force
    sent: nat,                    // CCRs sent under it
    answered: nat,                // of these, the ones whose send succeeded
    everSent: nat,                // CCRs sent since the context was created
    lastCCA: Option<CCA>,         // most recent answer, in any session
    heard: Option<CCA>,           // answer of the session's last successful send
    previous: Option<Option<CCA>>, // the same if there was one, retried sends not considered
    sentBefore: nat,              // CCRs sent before this run
    executions: nat,              // step executions in this run
    repeats: nat,                 // of these, the ones concluded without asking for a retry
    pass: Pass,                   // the current pass
    passes: seq<Pass>,            // the counted passes
    reported: seq<nat>)           // iteration numbers reported

  const START := Summary("", 0, 0, 0, None, None, None, 0, 0, 0, NEW_PASS, [], [])

  function Advance(s: Summary, e: Event): Summary {
    match e
    case RunStarted =>
      s.(heard := None, previous := None, sentBefore := s.everSent, executions := 0, repeats := 0,
         pass := NEW_PASS, passes := [], reported := [])
    case SessionReset(id) => s.(sessionID := id, sent := 0, answered := 0, heard := None, previous := None)
    case StepVisited(i) => s.(pass := s.pass.(visited := s.pass.visited + [i], landed := s.pass.jumped))
    case StepExecuted(_) => s.(executions := s.executions + 1)
    case Sent(_, _, answer, failed) =>
      s.(sent := s.sent + 1,
         everSent := s.everSent + 1,
         answered := if failed then s.answered else s.answered + 1,
         lastCCA := if !failed && answer.Some? then answer else s.lastCCA,
         heard := if failed then s.heard else answer)
    case Concluded(o) =>
      s.(previous := if o.Took? && o != Took(Retry) then Some(s.heard) else s.previous,
         repeats := if o == Took(Retry) then s.repeats else s.repeats + 1,
         pass := Heard(s.pass, e))
    case Waited(_) => s
    case Signalled(_) => s.(pass := Heard(s.pass, e))
    case PassEnded(k) => s.(pass := NEW_PASS, passes := s.passes + [s.pass], reported := s.reported + [k])
  }

  function Summarise(log: Log): Summary {
    if log == [] then START else Advance(Summarise(log[..|log| - 1]), log[|log| - 1])
  }

  lemma Extend(log: Log, e: Event)
    ensures Summarise(log + [e]) == Advance(Summarise(log), e)
  {
    assert (log + [e])[..|log|] == log;
  }

  /** Every CCR carries the Session-Id in force and the number of earlier
      answered CCRs of that session (modulo the 32-bit AVP). */
  ghost predicate Numbered(log: Log) {
    forall i :: 0 <= i < |log| && log[i].Sent? ==>
      && log[i].ccr.sessionID == Summarise(log[..i]).sessionID
      && log[i].ccr.requestNumber == Wrap32(Summarise(log[..i]).answered)
  }

  lemma ExtendNumbered(log: Log, e: Event)
    requires Numbered(log)
    requires e.Sent? ==> e.ccr.sessionID == Summarise(log).sessionID
    requires e.Sent? ==> e.ccr.requestNumber == Wrap32(Summarise(log).answered)
    ensures Numbered(log + [e])
  {
    var longer := log + [e];
    assert longer[..|log|] == log;
    forall i | 0 <= i < |longer| && longer[i].Sent?
      ensures longer[i].ccr.sessionID == Summarise(longer[..i]).sessionID
      ensures longer[i].ccr.requestNumber == Wrap32(Summarise(longer[..i]).answered)
    {
      if i < |log| {
        assert longer[..i] == log[..i];
      }
    }
  }

  // No send of the log failed.
  ghost predicate Clean(log: Log) {
    forall i :: 0 <= i < |log| && log[i].Sent? ==> !log[i].failed
  }

  lemma {:induction false} CleanAnswered(log: Log)
    requires Clean(log)
    ensures Summarise(log).answered == Summarise(log).sent
  {
    if log != [] {
      CleanAnswered(log[..|log| - 1]);
    }
  }

  /** CC-Request-Numbers are consecutive: as long as no send has failed, each
      CCR carries the count of CCRs already sent under its Session-Id. */
  lemma NumbersConsecutive(log: Log, i: nat)
    requires Numbered(log) && i < |log| && log[i].Sent? && Clean(log[..i])
    ensures log[i].ccr.requestNumber == Wrap32(Summarise(log[..i]).sent)
    ensures log[i].ccr.sessionID == Summarise(log[..i]).sessionID
  {
    CleanAnswered(log[..i]);
  }

  // ---- grants ---------------------------------------------------------

  /** What an answer grants the n-th service (n from 1): the n-th MSCC block,
      or for n = 1 the top-level grant of an answer without MSCC blocks. */
  function GrantIn(cca: CCA, unitType: UnitType, n: nat): (g: uint64)
    ensures !unitType.Octet? ==> g < TWO_32
  {
    if cca.mscc == [] then
      if n != 1 then 0 else if unitType.Octet? then cca.grantedTotalOctets else cca.grantedTime
    else if 1 <= n <= |cca.mscc| then
      if unitType.Octet? then cca.mscc[n - 1].grantedTotalOctets else cca.mscc[n - 1].grantedTime
    else 0
  }

  function LastGrant(cca: Option<CCA>, unitType: UnitType, n: nat): (g: uint64)
    ensures !unitType.Octet? ==> g < TWO_32
  {
    match cca
    case None => 0
    case Some(a) => GrantIn(a, unitType, n)
  }

  const RG_SUFFIXES := {"_GRANTED", "_GRANTED_UNITS", "_VALIDITY", "_RESULT_CODE", "_FUI_ACTION"}

  predicate IsGroupVar(name: string) {
    HasPrefix(name, "RG") &&
    (HasSuffix(name, "_GRANTED") || HasSuffix(name, "_GRANTED_UNITS") || HasSuffix(name, "_VALIDITY")
     || HasSuffix(name, "_RESULT_CODE") || HasSuffix(name, "_FUI_ACTION"))
  }

  /** The variables of different positions or kinds never collide. */
  lemma GroupVarsDistinct(n: nat, suffix: string, n': nat, suffix': string)
    requires suffix in RG_SUFFIXES && suffix' in RG_SUFFIXES
    ensures GroupVar(n, suffix) == GroupVar(n', suffix') <==> n == n' && suffix == suffix'
  {
    var a, b := GroupVar(n, suffix), GroupVar(n', suffix');
    assert a[|a| - 1] == suffix[|suffix| - 1] && b[|b| - 1] == suffix'[|suffix'| - 1];
    if a == b {
      assert suffix == suffix';
      assert Decimal(n) == a[2..|a| - |suffix|];
      assert Decimal(n') == b[2..|b| - |suffix'|];
      DecimalInjective(n, n');
    }
  }

  lemma GroupVarIsGroupVar(n: nat, suffix: string)
    requires suffix in RG_SUFFIXES
    ensures IsGroupVar(GroupVar(n, suffix))
    ensures GroupVar(n, suffix)[..2] == "RG"
  {
    var a := GroupVar(n, suffix);
    assert a[|a| - |suffix|..] == suffix;
  }

  // ---- automatic variables --------------------------------------------

  function ZeroGroupVars(vars: Vars): Vars {
    map k | k in vars :: if IsGroupVar(k) then Int64(0) else vars[k]
  }

  function WithRootVars(vars: Vars, cca: CCA): Vars {
    vars["RESULT_CODE" := Int64(cca.resultCode)]
        ["SESSION_ID" := Str(cca.sessionID)]
        ["FUI_ACTION" := Int64(cca.fuiAction)]
  }

  function WithRootGrant(vars: Vars, cca: CCA): Vars {
    if cca.mscc == [] then
      vars[GroupVar(1, "_GRANTED") := Int64(cca.grantedTime)]
          [GroupVar(1, "_GRANTED_UNITS") := Int64(Wrap64(cca.grantedTotalOctets))]
    else vars
  }

  function WithBlock(vars: Vars, n: nat, block: MSCCBlock): Vars {
    var granted := vars[GroupVar(n, "_GRANTED") := Int64(block.grantedTime)]
                       [GroupVar(n, "_GRANTED_UNITS") := Int64(Wrap64(block.grantedTotalOctets))];
    var valid := if block.validityTime > 0 then granted[GroupVar(n, "_VALIDITY") := Int64(block.validityTime)] else granted;
    valid[GroupVar(n, "_RESULT_CODE") := Int64(block.resultCode)]
         [GroupVar(n, "_FUI_ACTION") := Int64(block.fuiAction)]
  }

  function WithBlocks(vars: Vars, blocks: seq<MSCCBlock>): Vars {
    if blocks == [] then vars
    else WithBlock(WithBlocks(vars, blocks[..|blocks| - 1]), |blocks|, blocks[|blocks| - 1])
  }

  /** The variables after an answer has been taken in. */
  function Absorbed(vars: Vars, cca: CCA): Vars {
    WithBlocks(WithRootGrant(ZeroGroupVars(WithRootVars(vars, cca)), cca), cca.mscc)
  }

  lemma BlockKeepsOthers(vars: Vars, n: nat, block: MSCCBlock, unitType: UnitType, m: nat)
    ensures var key := GrantKey(unitType, m);
      && GrantKey(unitType, n) in WithBlock(vars, n, block)
      && (m != n ==> (key in vars <==> key in WithBlock(vars, n, block)))
      && (m != n && key in vars ==> WithBlock(vars, n, block)[key] == vars[key])
      && WithBlock(vars, n, block)[GrantKey(unitType, n)]
         == Int64(Wrap64(if unitType.Octet? then block.grantedTotalOctets else block.grantedTime))
  {
    var suffix := if unitType.Octet? then "_GRANTED_UNITS" else "_GRANTED";
    assert GrantKey(unitType, m) == GroupVar(m, suffix) && GrantKey(unitType, n) == GroupVar(n, suffix);
    forall s | s in RG_SUFFIXES
      ensures GroupVar(m, suffix) == GroupVar(n, s) <==> m == n && s == suffix
      ensures GroupVar(n, suffix) == GroupVar(n, s) <==> s == suffix
    {
      GroupVarsDistinct(m, suffix, n, s);
      GroupVarsDistinct(n, suffix, n, s);
    }
  }

  lemma {:induction false} BlocksSetGrants(vars: Vars, blocks: seq<MSCCBlock>, unitType: UnitType, n: nat)
    requires n >= 1
    ensures var key, after := GrantKey(unitType, n), WithBlocks(vars, blocks);
      if n <= |blocks| then
        && key in after
        && after[key] == Int64(Wrap64(if unitType.Octet? then blocks[n - 1].grantedTotalOctets else blocks[n - 1].grantedTime))
      else
        && (key in vars <==> key in after)
        && (key in vars ==> after[key] == vars[key])
  {
    if blocks != [] {
      var init := blocks[..|blocks| - 1];
      BlocksSetGrants(vars, init, unitType, n);
      BlockKeepsOthers(WithBlocks(vars, init), |blocks|, blocks[|blocks| - 1], unitType, n);
    }
  }

  /** After an answer, the variable of every seeded position holds what that
      answer grants there, zero included. */
  lemma AbsorbedGrants(vars: Vars, cca: CCA, unitType: UnitType, n: nat)
    requires n >= 1 && GrantKey(unitType, n) in vars
    ensures GrantKey(unitType, n) in Absorbed(vars, cca)
    ensures Absorbed(vars, cca)[GrantKey(unitType, n)] == Int64(Wrap64(GrantIn(cca, unitType, n)))
  {
    var suffix := if unitType.Octet? then "_GRANTED_UNITS" else "_GRANTED";
    var key := GrantKey(unitType, n);
    assert key == GroupVar(n, suffix);
    GroupVarIsGroupVar(n, suffix);
    assert key in WithRootVars(vars, cca);
    var zeroed := ZeroGroupVars(WithRootVars(vars, cca));
    assert zeroed[key] == Int64(0);
    GroupVarsDistinct(n, suffix, 1, "_GRANTED");
    GroupVarsDistinct(n, suffix, 1, "_GRANTED_UNITS");
    BlocksSetGrants(WithRootGrant(zeroed, cca), cca.mscc, unitType, n);
  }

  // ---- Session-Id -----------------------------------------------------

  /** <origin-host>;<hi32>;<lo32>, RFC 6733, section 8.8. */
  function SessionID(originHost: string, hi: uint32, lo: uint32): string {
    originHost + ";" + Decimal(hi) + ";" + Decimal(lo)
  }

  function IndexOf(s: string, c: char): (i: int)
    ensures -1 <= i < |s|
    ensures i >= 0 ==> s[i] == c && c !in s[..i]
    ensures i < 0 ==> c !in s
  {
    if s == "" then -1
    else if s[0] == c then 0
    else
      var rest := IndexOf(s[1..], c);
      assert rest >= 0 ==> s[..rest + 1] == [s[0]] + s[1..][..rest];
      if rest < 0 then -1 else rest + 1
  }

  lemma FirstIndex(s: string, c: char, i: nat)
    requires i < |s| && s[i] == c && c !in s[..i]
    ensures IndexOf(s, c) == i
  {
    if i > 0 {
      assert s[..i][0] == s[0];
      assert s[1..][..i - 1] == s[..i][1..];
      FirstIndex(s[1..], c, i - 1);
    }
  }

  /** The origin host that a reset takes over from the previous Session-Id. */
  function CarriedHost(peerName: string, sessionID: string): string {
    var i := IndexOf(sessionID, ';');
    if peerName != "" && i >= 0 then sessionID[..i] else sessionID
  }

  function Semicolons(s: string): nat {
    if s == "" then 0 else (if s[0] == ';' then 1 else 0) + Semicolons(s[1..])
  }

  lemma {:induction false} SemicolonsAppend(a: string, b: string)
    ensures Semicolons(a + b) == Semicolons(a) + Semicolons(b)
  {
    if a == "" {
      assert a + b == b;
    } else {
      assert (a + b)[1..] == a[1..] + b;
      SemicolonsAppend(a[1..], b);
    }
  }

  lemma {:induction false} NoSemicolons(s: string)
    ensures Semicolons(s) == 0 <==> ';' !in s
  {
    if s != "" {
      NoSemicolons(s[1..]);
      assert ';' in s <==> s[0] == ';' || ';' in s[1..];
    }
  }

  lemma SessionIDSemicolons(originHost: string, hi: uint32, lo: uint32)
    ensures Semicolons(SessionID(originHost, hi, lo)) == Semicolons(originHost) + 2
  {
    NoSemicolons(Decimal(hi));
    NoSemicolons(Decimal(lo));
    SemicolonsAppend(originHost + ";" + Decimal(hi) + ";", Decimal(lo));
    SemicolonsAppend(originHost + ";" + Decimal(hi), ";");
    SemicolonsAppend(originHost + ";", Decimal(hi));
    SemicolonsAppend(originHost, ";");
    assert Semicolons(";") == 1 + Semicolons(";"[1..]);
  }

  ghost predicate HasHost(sessionID: string, originHost: string) {
    exists hi: uint32, lo: uint32 :: sessionID == SessionID(originHost, hi, lo)
  }

  /** A reset keeps the origin host exactly when the session is bound to a
      named peer and the origin host contains no semicolon. */
  lemma ResetKeepsHost(peerName: string, originHost: string, id: string, hi: uint32, lo: uint32)
    requires HasHost(id, originHost)
    ensures HasHost(SessionID(CarriedHost(peerName, id), hi, lo), originHost)
            <==> peerName != "" && ';' !in originHost
  {
    var h: uint32, l: uint32 :| id == SessionID(originHost, h, l);
    var carried := CarriedHost(peerName, id);
    assert id[|originHost|] == ';';
    SessionIDSemicolons(originHost, h, l);
    SessionIDSemicolons(carried, hi, lo);
    if peerName != "" && ';' !in originHost {
      var i := IndexOf(id, ';');
      FirstIndex(id, ';', |originHost|);
      assert carried == originHost;
    } else {
      NoSemicolons(originHost);
      if peerName != "" {
        NoSemicolons(carried);
      }
      assert Semicolons(carried) != Semicolons(originHost);
      if HasHost(SessionID(carried, hi, lo), originHost) {
        var h': uint32, l': uint32 :| SessionID(carried, hi, lo) == SessionID(originHost, h', l');
        SessionIDSemicolons(originHost, h', l');
        assert false;
      }
    }
  }

  // ---- the context ----------------------------------------------------

  /** The part of a context that executing a step can change. */
  datatype Snapshot = Snapshot(
    sessionID: string,
    ccRequestNumber: uint32,
    vars: Vars,
    serviceContextID: string,
    destRealm: string,
    destHost: string,
    log: Log)

  function Noted(pre: Snapshot, e: Event): Snapshot {
    pre.(log := pre.log + [e])
  }

  class SessionContext {
    const peerName: string
    var sessionID: string
    var ccRequestNumber: uint32
    var state: State
    var vars: Vars
    var metrics: seq<SendMetrics>
    var serviceContextID: string
    var destRealm: string
    var destHost: string
    ghost var log: Log

    ghost predicate Valid()
      reads this
    {
      && sessionID == Summarise(log).sessionID
      && ccRequestNumber == Wrap32(Summarise(log).answered)
      && |metrics| == Summarise(log).everSent
      && Numbered(log)
    }

    ghost function Now(): Snapshot
      reads this
    {
      Snapshot(sessionID, ccRequestNumber, vars, serviceContextID, destRealm, destHost, log)
    }

    /** A fresh context: new Session-Id, CC-Request-Number 0. */
    constructor (peerName: string, originHost: string)
      ensures Valid() && this.peerName == peerName
      ensures HasHost(sessionID, originHost)
      ensures ccRequestNumber == 0 && state == Active && metrics == []
      ensures vars == map["CC_REQUEST_NUMBER" := Uint32(0)]
      ensures log == [SessionReset(sessionID)]
    {
      var hi: uint32, lo: uint32 := *, *;
      var id := SessionID(originHost, hi, lo);
      this.peerName := peerName;
      sessionID := id;
      ccRequestNumber := 0;
      state := Active;
      vars := map["CC_REQUEST_NUMBER" := Uint32(0)];
      metrics := [];
      serviceContextID, destRealm, destHost := "", "", "";
      log := [SessionReset(id)];
      new;
      assert [] + [SessionReset(id)] == log;
      Extend([], SessionReset(id));
    }

    /** New Session-Id from the carried-over host, number back to 0;
        variables and metrics stay. */
    method ResetForNewIteration()
      requires Valid()
      modifies this
      ensures Valid()
      ensures HasHost(sessionID, CarriedHost(peerName, old(sessionID)))
      ensures ccRequestNumber == 0
      ensures vars == old(vars)["CC_REQUEST_NUMBER" := Uint32(0)]
      ensures log == old(log) + [SessionReset(sessionID)]
      ensures metrics == old(metrics) && state == old(state)
      ensures serviceContextID == old(serviceContextID) && destRealm == old(destRealm) && destHost == old(destHost)
    {
      var host := sessionID;
      if |peerName| > 0 {
        var j := IndexOf(sessionID, ';');
        if j >= 0 {
          host := sessionID[..j];
        }
      }
      var hi: uint32, lo: uint32 := *, *;
      sessionID := SessionID(host, hi, lo);
      ccRequestNumber := 0;
      vars := vars["CC_REQUEST_NUMBER" := Uint32(0)];
      Note(SessionReset(sessionID));
    }

    // Records an event that is not a send.
    ghost method Note(e: Event)
      requires !e.Sent? && Numbered(log)
      modifies this`log
      ensures log == old(log) + [e] && Numbered(log)
      ensures Summarise(log) == Advance(old(Summarise(log)), e)
    {
      Extend(log, e);
      ExtendNumbered(log, e);
      log := log + [e];
    }

    /** Hands a CCR to the sender, whatever it answers, and keeps the metrics
        of the exchange whether or not it succeeded. */
    method Send(ccr: CCR, ghost values: Vars) returns (result: SendResult)
      requires Valid()
      requires ccr.sessionID == sessionID && ccr.requestNumber == ccRequestNumber
      modifies this`log, this`metrics
      ensures log == old(log) + [Sent(ccr, values, result.cca, result.metrics.failed)]
      ensures metrics == old(metrics) + [result.metrics]
      ensures Numbered(log)
      ensures Summarise(log) == Advance(old(Summarise(log)), log[|log| - 1])
    {
      result := *;
      ghost var e := Sent(ccr, values, result.cca, result.metrics.failed);
      Extend(log, e);
      ExtendNumbered(log, e);
      log := log + [e];
      metrics := metrics + [result.metrics];
    }

    // The values of the message itself, with every rating-group variable at zero.
    method UpdateRootVars(cca: CCA)
      modifies this`vars
      ensures vars == WithRootGrant(ZeroGroupVars(WithRootVars(old(vars), cca)), cca)
    {
      hide GroupVar, IsGroupVar;
      vars := vars["RESULT_CODE" := Int64(cca.resultCode)];
      vars := vars["SESSION_ID" := Str(cca.sessionID)];
      vars := vars["FUI_ACTION" := Int64(cca.fuiAction)];
      vars := map k | k in vars :: if IsGroupVar(k) then Int64(0) else vars[k];
      if cca.mscc == [] {
        vars := vars[GroupVar(1, "_GRANTED") := Int64(cca.grantedTime)];
        vars := vars[GroupVar(1, "_GRANTED_UNITS") := Int64(Wrap64(cca.grantedTotalOctets))];
      }
    }

    // The values of the n-th rating group.
    method UpdateBlockVars(n: nat, block: MSCCBlock)
      modifies this`vars
      ensures vars == WithBlock(old(vars), n, block)
    {
      hide GroupVar, Wrap64;
      vars := vars[GroupVar(n, "_GRANTED") := Int64(block.grantedTime)];
      vars := vars[GroupVar(n, "_GRANTED_UNITS") := Int64(Wrap64(block.grantedTotalOctets))];
      if block.validityTime > 0 {
        vars := vars[GroupVar(n, "_VALIDITY") := Int64(block.validityTime)];
      }
      vars := vars[GroupVar(n, "_RESULT_CODE") := Int64(block.resultCode)];
      vars := vars[GroupVar(n, "_FUI_ACTION") := Int64(block.fuiAction)];
    }

    /** Takes an answer into the variables: root values, then zero for every
        rating-group variable, then the grants the answer carries. */
    method AutoUpdateVars(cca: CCA)
      modifies this`vars
      ensures vars == Absorbed(old(vars), cca)
    {
      hide WithBlock, WithRootGrant, WithRootVars, ZeroGroupVars;
      UpdateRootVars(cca);
      ghost var base := vars;
      var i := 0;
      while i < |cca.mscc|
        invariant 0 <= i <= |cca.mscc|
        invariant vars == WithBlocks(base, cca.mscc[..i])
      {
        assert cca.mscc[..i + 1][..i] == cca.mscc[..i];
        UpdateBlockVars(i + 1, cca.mscc[i]);
        i := i + 1;
      }
      assert cca.mscc[..i] == cca.mscc;
    }
  }
}
