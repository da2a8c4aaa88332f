/** The shape of a run's log: its passes, the sessions they open, and the
    numbers of their CCRs. */
module RunLog {
  import opened Text
  import opened Values
  import opened Session

  /** A counted pass: nothing in it ends the run, and it visits all n steps in
      order, or after a jump a prefix and then the last one. */
  ghost predicate FullPass(pass: Pass, n: nat) {
    && !pass.broken
    && if pass.jumped then exists i :: 0 <= i < n && pass.visited == PassThrough(i, n) else pass.visited == Range(n)
  }

  // Steps 0 to i in order, then the last of n steps unless i is that step.
  function PassThrough(i: nat, n: nat): seq<nat>
    requires i < n
  {
    Range(i + 1) + (if i == n - 1 then [] else [n - 1])
  }

  function Range(n: nat): seq<nat> {
    seq(n, k => k)
  }

  function OneTo(k: nat): seq<nat> {
    seq(k, j => j + 1)
  }

  lemma FullPassEndsLast(pass: Pass, n: nat)
    requires n > 0 && FullPass(pass, n)
    ensures pass.visited != [] && pass.visited[0] == 0 && pass.visited[|pass.visited| - 1] == n - 1 && |pass.visited| <= n
    ensures forall j, k :: 0 <= j < k < |pass.visited| ==> pass.visited[j] < pass.visited[k]
  {
    if pass.jumped {
      var i :| 0 <= i < n && pass.visited == PassThrough(i, n);
      assert Range(i + 1)[i] == i;
    }
  }

  // From j on the log executes step k, after a wait if there is one, or hears a signal in that wait.
  ghost predicate Begins(log: Log, j: nat, k: nat) {
    && j < |log|
    && (log[j] == StepExecuted(k)
        || (log[j].Waited? && j + 1 < |log| && (log[j + 1] == StepExecuted(k) || log[j + 1].Signalled?)))
  }

  // Each visit to a step executes it, unless its first wait is cut short.
  ghost predicate VisitsExecute(log: Log) {
    forall i, k :: 0 <= i < |log| && log[i] == StepVisited(k) ==> Begins(log, i + 1, k)
  }

  // Every Session-Id taken into use starts with the given origin host.
  ghost predicate HostKept(log: Log, host: string) {
    forall i :: 0 <= i < |log| && log[i].SessionReset? ==> HasHost(log[i].sessionID, host)
  }

  /** Passes and sessions go together: every reset but the first event directly
      follows the end of a pass, and the end of a pass is directly followed by
      a reset unless nothing follows. */
  ghost predicate Punctuated(log: Log) {
    && (forall i :: 0 < i < |log| && log[i].SessionReset? ==> log[i - 1].PassEnded?)
    && (forall i :: 0 < i < |log| && log[i - 1].PassEnded? ==> log[i].SessionReset?)
  }

  // Punctuated, with a pass under way.
  ghost predicate MidPass(log: Log) {
    Punctuated(log) && (log == [] || !log[|log| - 1].PassEnded?)
  }

  // Only what happens inside a pass was added.
  ghost predicate WithinPass(log: Log, log': Log) {
    && log <= log'
    && forall i :: |log| <= i < |log'| ==> !log'[i].SessionReset? && !log'[i].PassEnded? && !log'[i].RunStarted?
  }

  lemma WithinPassThen(log: Log, mid: Log, log': Log)
    requires WithinPass(log, mid) && WithinPass(mid, log')
    ensures WithinPass(log, log')
  {
  }

  lemma NothingInPass(log: Log)
    ensures WithinPass(log, log)
  {
  }

  lemma NoteWithinPass(log: Log, mid: Log, e: Event)
    requires WithinPass(log, mid) && (e.Waited? || e.Signalled?)
    ensures WithinPass(log, mid + [e])
  {
  }

  lemma {:induction false} SentBeforeKept(log: Log, log': Log)
    requires WithinPass(log, log')
    ensures Summarise(log').sentBefore == Summarise(log).sentBefore
    decreases |log'|
  {
    if |log'| > |log| {
      var init := log'[..|log'| - 1];
      assert log <= init;
      SentBeforeKept(log, init);
      assert log' == init + [log'[|log'| - 1]];
      Extend(init, log'[|log'| - 1]);
    } else {
      assert log' == log;
    }
  }

  // A run so far: punctuated, and in the middle of a pass.
  ghost predicate RunOpen(start: Log, log: Log) {
    start <= log && (MidPass(start) ==> MidPass(log))
  }

  // A run that may have ended with a pass.
  ghost predicate RunPunctuated(start: Log, log: Log) {
    start <= log && (MidPass(start) ==> Punctuated(log))
  }

  lemma RunOpens(start: Log)
    ensures RunOpen(start, start) && RunOpen(start, start + [RunStarted])
    ensures RunPunctuated(start, start)
  {
  }

  lemma RunStaysOpen(start: Log, log: Log, log': Log)
    requires RunOpen(start, log) && WithinPass(log, log')
    ensures RunOpen(start, log') && RunPunctuated(start, log')
  {
  }

  // A pass ends, and the next one opens with a reset.
  lemma RunTurns(start: Log, log: Log, k: nat)
    requires RunOpen(start, log)
    ensures RunPunctuated(start, log) && RunPunctuated(start, log + [PassEnded(k)])
    ensures forall id :: RunOpen(start, log + [PassEnded(k)] + [SessionReset(id)])
  {
  }

  // The CCRs sent from index s on.
  function SentFrom(log: Log, s: nat): nat
    requires s <= |log|
  {
    if s == |log| then 0 else SentFrom(log[..|log| - 1], s) + (if log[|log| - 1].Sent? then 1 else 0)
  }

  /** Event s is the reset that opens the pass of event j. */
  ghost predicate Opens(log: Log, s: nat, j: nat) {
    && s < j <= |log| && log[s].SessionReset?
    && (s == 0 || log[s - 1].PassEnded?)
    && forall i :: s < i < j ==> !log[i].SessionReset? && !log[i].PassEnded?
  }

  lemma {:induction false} SinceReset(log: Log, s: nat)
    requires Opens(log, s, |log|)
    ensures Summarise(log).sessionID == log[s].sessionID
    ensures Summarise(log).sent == SentFrom(log, s + 1)
    decreases |log|
  {
    var init := log[..|log| - 1];
    assert log == init + [log[|log| - 1]];
    Extend(init, log[|log| - 1]);
    if s + 1 < |log| {
      assert init[s] == log[s];
      SinceReset(init, s);
    }
  }

  /** The CCRs of one pass share the Session-Id its reset made and are numbered
      0, 1, 2, ... while no send has failed. */
  lemma PassNumbering(log: Log, s: nat, j: nat)
    requires Numbered(log) && j < |log| && log[j].Sent? && Opens(log, s, j)
    ensures log[j].ccr.sessionID == log[s].sessionID
    ensures Clean(log[..j]) ==> log[j].ccr.requestNumber == Wrap32(SentFrom(log[..j], s + 1))
  {
    assert log[..j][s] == log[s];
    SinceReset(log[..j], s);
    if Clean(log[..j]) {
      NumbersConsecutive(log, j);
    }
  }

  // The last reset before j.
  lemma {:induction false} LastReset(log: Log, j: nat) returns (s: nat)
    requires 0 < j <= |log| && log[0].SessionReset?
    ensures s < j && log[s].SessionReset? && forall i :: s < i < j ==> !log[i].SessionReset?
  {
    if log[j - 1].SessionReset? {
      s := j - 1;
    } else {
      s := LastReset(log, j - 1);
    }
  }

  lemma ResetFollows(log: Log, i: nat)
    requires Punctuated(log) && i + 1 < |log|
    ensures log[i].PassEnded? ==> log[i + 1].SessionReset?
  {
    assert log[i + 1 - 1] == log[i];
  }

  /** Every send belongs to the pass of some reset. */
  lemma SendsHavePass(log: Log, j: nat) returns (s: nat)
    requires Punctuated(log) && log != [] && log[0].SessionReset?
    requires j < |log| && log[j].Sent?
    ensures Opens(log, s, j)
  {
    s := LastReset(log, j);
    forall i | s < i < j
      ensures !log[i].PassEnded?
    {
      ResetFollows(log, i);
    }
  }

  /** Two sends with no end of a pass between them share one Session-Id. */
  lemma OnePassOneSession(log: Log, i: nat, j: nat)
    requires Numbered(log) && Punctuated(log) && log != [] && log[0].SessionReset?
    requires i < j < |log| && log[i].Sent? && log[j].Sent? && (forall k :: i < k < j ==> !log[k].PassEnded?)
    ensures log[i].ccr.sessionID == log[j].ccr.sessionID
  {
    var s := SendsHavePass(log, j);
    assert s < i;
    PassNumbering(log, s, i);
    PassNumbering(log, s, j);
  }

  // A send has the Session-Id of its pass's reset and its place in the pass as number.
  ghost predicate InSequence(log: Log, s: nat, j: nat)
    requires j < |log| && log[j].Sent? && Opens(log, s, j)
  {
    && log[j].ccr.sessionID == log[s].sessionID
    && (Clean(log[..j]) ==> log[j].ccr.requestNumber == Wrap32(SentFrom(log[..j], s + 1)))
  }

  /** Every CCR of the log carries the Session-Id of its pass, and while no send
      has failed the number of CCRs sent before it in that pass. */
  ghost predicate PassesNumbered(log: Log) {
    forall j :: 0 <= j < |log| && log[j].Sent? ==> exists s :: Opens(log, s, j) && InSequence(log, s, j)
  }

  lemma AllPassesNumbered(log: Log)
    requires Numbered(log) && Punctuated(log) && log != [] && log[0].SessionReset?
    ensures PassesNumbered(log)
  {
    hide Opens, Clean;
    forall j | 0 <= j < |log| && log[j].Sent?
      ensures exists s :: Opens(log, s, j) && InSequence(log, s, j)
    {
      var s := SendsHavePass(log, j);
      PassNumbering(log, s, j);
      assert InSequence(log, s, j);
    }
  }
}
