/** The lifecycle of a peer connection: dial, serve, reconnect with capped
    exponential backoff. Other goroutines ask for the connection, or cancel the
    run, between any two atomic steps. */
module Connection {
  import opened Text
  import opened Subscribers

  const SECOND_NS: int := 1_000_000_000
  const DEFAULT_BACKOFF_INITIAL: int := 1 * SECOND_NS
  const DEFAULT_BACKOFF_CAP: int := 60 * SECOND_NS
  const DEFAULT_BACKOFF_FACTOR: real := 2.0

  // ---- backoff --------------------------------------------------------

  function NextBackoff(cur: int, factor: real, cap: int): int {
    var f := if factor <= 1.0 then 2.0 else factor;
    var product := cur as real * f;
    var next := if product >= 0.0 then product.Floor else -((-product).Floor);
    if next > cap then cap else if next <= 0 then cap else next
  }

  /** The wait after j further failures. */
  function Backoff(initial: int, factor: real, cap: int, j: nat): int {
    if j == 0 then initial else NextBackoff(Backoff(initial, factor, cap, j - 1), factor, cap)
  }

  function Power2(j: nat): (p: int)
    ensures p >= 1
  {
    if j == 0 then 1 else 2 * Power2(j - 1)
  }

  lemma ProductAtLeast(cur: int, f: real)
    requires cur > 0 && f >= 1.0
    ensures cur as real * f >= cur as real && (cur as real * f).Floor >= cur
  {
    assert cur as real * (f - 1.0) >= 0.0;
  }

  lemma NextBackoffGrows(cur: int, factor: real, cap: int)
    requires 0 < cur <= cap
    ensures cur <= NextBackoff(cur, factor, cap) <= cap
  {
    ProductAtLeast(cur, if factor <= 1.0 then 2.0 else factor);
  }

  /** For every factor the waits never shrink and stay between the initial wait and the cap. */
  lemma {:induction false} BackoffMonotone(initial: int, factor: real, cap: int, j: nat)
    requires 0 < initial <= cap
    ensures initial <= Backoff(initial, factor, cap, j) <= Backoff(initial, factor, cap, j + 1) <= cap
  {
    if j > 0 {
      BackoffMonotone(initial, factor, cap, j - 1);
    }
    NextBackoffGrows(Backoff(initial, factor, cap, j), factor, cap);
  }

  lemma NextBackoffDoubles(cur: int, factor: real, cap: int)
    requires cur > 0 && (factor == 2.0 || factor <= 1.0)
    ensures NextBackoff(cur, factor, cap) == if 2 * cur > cap then cap else 2 * cur
  {
    assert cur as real * 2.0 == (2 * cur) as real;
  }

  lemma PowerTimes(initial: int, j: nat)
    requires initial > 0
    ensures initial * Power2(j) >= initial
    ensures initial * Power2(j + 1) == 2 * (initial * Power2(j))
  {
    assert initial * (Power2(j) - 1) >= 0;
  }

  lemma {:induction false} DoublingCapped(initial: int, factor: real, cap: int, j: nat)
    requires 0 < initial <= cap && (factor == 2.0 || factor <= 1.0)
    ensures Backoff(initial, factor, cap, j) == Min(initial * Power2(j), cap)
  {
    hide NextBackoff;
    if j > 0 {
      hide Power2;
      DoublingCapped(initial, factor, cap, j - 1);
      PowerTimes(initial, j - 1);
      NextBackoffDoubles(Min(initial * Power2(j - 1), cap), factor, cap);
    }
  }

  /** Closed form: with the default factor the waits are min(initial * 2^j, cap),
      for all j, if and only if the initial wait is within the cap (a larger one
      is used once, unreduced). */
  lemma BackoffClosedForm(initial: int, factor: real, cap: int)
    requires 0 < initial && 0 < cap && (factor == 2.0 || factor <= 1.0)
    ensures (forall j: nat :: Backoff(initial, factor, cap, j) == Min(initial * Power2(j), cap)) <==> initial <= cap
  {
    if initial <= cap {
      forall j: nat
        ensures Backoff(initial, factor, cap, j) == Min(initial * Power2(j), cap)
      {
        DoublingCapped(initial, factor, cap, j);
      }
    } else {
      assert Backoff(initial, factor, cap, 0) != Min(initial * Power2(0), cap);
    }
  }

  // ---- configuration --------------------------------------------------

  datatype PeerConfig = PeerConfig(
    name: string, host: string, port: int, originHost: string, originRealm: string, transport: string)

  datatype ConnectError = BadName | BadHost | BadPort | BadOriginHost | BadOriginRealm | BadTransport | AlreadyConnected

  function ValidateConfig(cfg: PeerConfig): Option<ConnectError> {
    if TrimSpace(cfg.name) == "" then Some(BadName)
    else if TrimSpace(cfg.host) == "" then Some(BadHost)
    else if cfg.port <= 0 || cfg.port > 65535 then Some(BadPort)
    else if TrimSpace(cfg.originHost) == "" then Some(BadOriginHost)
    else if TrimSpace(cfg.originRealm) == "" then Some(BadOriginRealm)
    else if Lower(TrimSpace(cfg.transport)) !in {"", "tcp", "tls"} then Some(BadTransport)
    else None
  }

  // ---- traces ---------------------------------------------------------

  predicate AllowedEdge(ev: StateEvent) {
    match ev.source
    case Stopped => ev.target == Connecting
    case Connecting => ev.target == Connected || ev.target == Disconnected
    case Disconnected => ev.target == Connected || ev.target == Stopped
    case Connected => ev.target == Disconnected || ev.target == Stopped
  }

  /** Each event starts where the one before ended, the first from Stopped and
      the last at the current state. */
  predicate Chained(trace: seq<StateEvent>, state: ConnectionState) {
    if trace == [] then state == Stopped
    else
      var last := trace[|trace| - 1];
      last.target == state && AllowedEdge(last) && Chained(trace[..|trace| - 1], last.source)
  }

  function CountTo(trace: seq<StateEvent>, target: ConnectionState): nat {
    if trace == [] then 0
    else CountTo(trace[..|trace| - 1], target) + (if trace[|trace| - 1].target == target then 1 else 0)
  }

  lemma TraceExtend(trace: seq<StateEvent>, ev: StateEvent)
    ensures Chained(trace + [ev], ev.target) <==> AllowedEdge(ev) && Chained(trace, ev.source)
    ensures forall t :: CountTo(trace + [ev], t) == CountTo(trace, t) + (if ev.target == t then 1 else 0)
  {
    assert (trace + [ev])[..|trace|] == trace;
  }

  // What a run goes through: dials that fail or succeed, and waits.
  datatype Attempt = Failure | Waited(wait: int) | Success

  // Failures since the last success.
  function Failures(history: seq<Attempt>): nat {
    if history == [] || history[|history| - 1].Success? then 0
    else Failures(history[..|history| - 1]) + (if history[|history| - 1].Failure? then 1 else 0)
  }

  function Successes(history: seq<Attempt>): nat {
    if history == [] then 0
    else Successes(history[..|history| - 1]) + (if history[|history| - 1].Success? then 1 else 0)
  }

  lemma HistoryExtend(history: seq<Attempt>, a: Attempt)
    ensures Failures(history + [a]) == if a.Success? then 0 else Failures(history) + (if a.Failure? then 1 else 0)
    ensures Successes(history + [a]) == Successes(history) + (if a.Success? then 1 else 0)
  {
    assert (history + [a])[..|history|] == history;
  }

  // The first dial of the run failed.
  predicate FirstFailed(history: seq<Attempt>) {
    history != [] && history[0].Failure?
  }

  /** What the trace of a run says: one Connecting event at most, one Connected
      per successful dial, one Disconnected per drop and one more if the first
      dial failed. */
  ghost predicate Lifecycle(trace: seq<StateEvent>, state: ConnectionState, history: seq<Attempt>, drops: nat) {
    && Chained(trace, state)
    && CountTo(trace, Connecting) <= 1
    && CountTo(trace, Connected) == Successes(history)
    && CountTo(trace, Disconnected) == drops + (if FirstFailed(history) then 1 else 0)
  }

  /** The run waits after every failed dial and at no other time: Backoff(j)
      after the (j+1)-th failure in a row. */
  ghost predicate BacksOff(history: seq<Attempt>, initial: int, factor: real, cap: int) {
    && (forall i :: 0 <= i < |history| && history[i].Waited? ==>
          i > 0 && history[i - 1].Failure? && history[i].wait == Backoff(initial, factor, cap, Failures(history[..i - 1])))
    && (forall i :: 0 < i < |history| && history[i - 1].Failure? ==> history[i].Waited?)
  }

  // No failure is left without its wait.
  predicate Settled(history: seq<Attempt>) {
    history == [] || !history[|history| - 1].Failure?
  }

  lemma DialBacksOff(history: seq<Attempt>, a: Attempt, initial: int, factor: real, cap: int)
    requires BacksOff(history, initial, factor, cap) && Settled(history) && !a.Waited?
    ensures BacksOff(history + [a], initial, factor, cap)
  {
    hide Backoff, Failures;
    var longer := history + [a];
    forall i | 0 <= i < |longer| && longer[i].Waited?
      ensures i > 0 && longer[i - 1].Failure? && longer[i].wait == Backoff(initial, factor, cap, Failures(longer[..i - 1]))
    {
      assert longer[..i - 1] == history[..i - 1];
    }
  }

  lemma WaitBacksOff(history: seq<Attempt>, w: int, initial: int, factor: real, cap: int)
    requires BacksOff(history + [Failure], initial, factor, cap) && w == Backoff(initial, factor, cap, Failures(history))
    ensures BacksOff(history + [Failure] + [Waited(w)], initial, factor, cap)
  {
    hide Backoff, Failures;
    var shorter, longer := history + [Failure], history + [Failure] + [Waited(w)];
    forall i | 0 <= i < |longer| && longer[i].Waited?
      ensures i > 0 && longer[i - 1].Failure? && longer[i].wait == Backoff(initial, factor, cap, Failures(longer[..i - 1]))
    {
      if i < |shorter| {
        assert shorter[i].Waited? && longer[..i - 1] == shorter[..i - 1];
      } else {
        assert longer[..i - 1] == history;
      }
    }
  }

  lemma LifecycleStarts(trace: seq<StateEvent>, ev: StateEvent, history: seq<Attempt>, drops: nat)
    requires Lifecycle(trace, ev.source, history, drops) && ev.source == Stopped && ev.target == Connecting
    requires CountTo(trace, Connecting) == 0
    ensures Lifecycle(trace + [ev], Connecting, history, drops) && CountTo(trace + [ev], Connecting) == 1
  {
    TraceExtend(trace, ev);
  }

  lemma LifecycleStops(trace: seq<StateEvent>, ev: StateEvent, history: seq<Attempt>, drops: nat)
    requires Lifecycle(trace, ev.source, history, drops) && AllowedEdge(ev) && ev.target == Stopped
    ensures Lifecycle(trace + [ev], Stopped, history, drops)
  {
    TraceExtend(trace, ev);
  }

  lemma LifecycleDrops(trace: seq<StateEvent>, ev: StateEvent, history: seq<Attempt>, drops: nat)
    requires Lifecycle(trace, ev.source, history, drops) && ev.source == Connected && ev.target == Disconnected
    ensures Lifecycle(trace + [ev], Disconnected, history, drops + 1)
    ensures CountTo(trace + [ev], Connecting) == CountTo(trace, Connecting)
  {
    TraceExtend(trace, ev);
  }

  lemma LifecycleConnects(trace: seq<StateEvent>, ev: StateEvent, history: seq<Attempt>, drops: nat)
    requires Lifecycle(trace, ev.source, history, drops) && AllowedEdge(ev) && ev.target == Connected
    ensures Lifecycle(trace + [ev], Connected, history + [Success], drops)
    ensures CountTo(trace + [ev], Connecting) == CountTo(trace, Connecting)
  {
    TraceExtend(trace, ev);
    HistoryExtend(history, Success);
  }

  lemma LifecycleFailsFirst(trace: seq<StateEvent>, ev: StateEvent, history: seq<Attempt>, drops: nat)
    requires Lifecycle(trace, ev.source, history, drops) && history == [] && ev.source == Connecting && ev.target == Disconnected
    ensures Lifecycle(trace + [ev], Disconnected, history + [Failure], drops)
    ensures CountTo(trace + [ev], Connecting) == CountTo(trace, Connecting)
  {
    TraceExtend(trace, ev);
    HistoryExtend(history, Failure);
  }

  lemma LifecycleGoesOn(trace: seq<StateEvent>, state: ConnectionState, history: seq<Attempt>, drops: nat, a: Attempt)
    requires Lifecycle(trace, state, history, drops) && history != [] && !a.Success?
    ensures Lifecycle(trace, state, history + [a], drops)
  {
    HistoryExtend(history, a);
  }

  // ---- the connection -------------------------------------------------

  class PeerConnection {
    const cfg: PeerConfig
    const initial: int
    const cap: int
    const factor: real
    var state: ConnectionState
    var running: bool                // a cancel function is set
    var cancelled: bool              // the run's context is done
    var active: Option<nat>          // the live connection, by number
    var made: nat                    // connections made so far
    var closed: set<nat>             // connections the run has closed
    var stale: bool                  // some caller of Conn was given a closed one
    var trace: seq<StateEvent>       // of the current run
    var history: seq<Attempt>
    var drops: nat

    /** No caller was given a closed connection, and none can be. */
    ghost predicate Safe()
      reads this
    {
      && !stale
      && (active.Some? ==> active.value !in closed && active.value < made)
      && (forall c :: c in closed ==> c < made)
    }

    ghost predicate Recorded()
      reads this
    {
      Lifecycle(trace, state, history, drops) && BacksOff(history, initial, factor, cap) && Settled(history)
    }

    constructor (config: PeerConfig)
      ensures cfg == config && state == Stopped && !running && active == None && Safe()
      ensures initial == DEFAULT_BACKOFF_INITIAL && cap == DEFAULT_BACKOFF_CAP && factor == DEFAULT_BACKOFF_FACTOR
    {
      cfg := config;
      initial, cap, factor := DEFAULT_BACKOFF_INITIAL, DEFAULT_BACKOFF_CAP, DEFAULT_BACKOFF_FACTOR;
      state, running, cancelled := Stopped, false, false;
      active, made, closed, stale := None, 0, {}, false;
      trace, history, drops := [], [], 0;
    }

    /** The connection a sender may write to now. */
    method Conn() returns (c: Option<nat>)
      ensures c.Some? <==> state == Connected && active.Some?
      ensures c.Some? ==> c == active
      ensures Safe() && c.Some? ==> c.value !in closed
    {
      c := if state != Connected then None else active;
    }

    method TransitionTo(next: ConnectionState, detail: string) returns (changed: bool)
      modifies this`state, this`trace
      ensures state == next && changed == (old(state) != next)
      ensures trace == if changed then old(trace) + [StateEvent(old(state), next, detail)] else old(trace)
    {
      var prev := state;
      state := next;
      changed := prev != next;
      if changed {
        trace := trace + [StateEvent(prev, next, detail)];
      }
    }

    /** Starts a run; the history starts afresh. */
    method Connect() returns (err: Option<ConnectError>)
      requires Safe()
      modifies this
      ensures Safe() && state == old(state) && active == old(active)
      ensures ValidateConfig(cfg).Some? ==> err == ValidateConfig(cfg)
      ensures ValidateConfig(cfg).None? ==> err == if old(running) then Some(AlreadyConnected) else None
      ensures err.None? ==> running && !cancelled && trace == [] && history == [] && drops == 0
      ensures err.Some? ==> running == old(running) && cancelled == old(cancelled) && trace == old(trace)
    {
      hide ValidateConfig;
      err := ValidateConfig(cfg);
      if err.Some? {
        return;
      }
      if running {
        return Some(AlreadyConnected);
      }
      running, cancelled := true, false;
      trace, history, drops := [], [], 0;
    }

    /** Cancels a run in progress; without one the state is reset. */
    method Disconnect()
      modifies this`state, this`trace, this`running, this`cancelled
      ensures !running
      ensures old(running) ==> cancelled && state == old(state) && trace == old(trace)
      ensures !old(running) ==> state == Stopped && cancelled == old(cancelled)
    {
      if !running {
        var _ := TransitionTo(Stopped, "manual disconnect (idempotent)");
        return;
      }
      running, cancelled := false, true;
    }

    /** What other goroutines do between two steps of the run: ask for the
        connection any number of times, and perhaps cancel. */
    method Others()
      requires Safe()
      modifies this`stale, this`cancelled, this`running
      ensures Safe() && (old(cancelled) ==> cancelled)
    {
      var n: nat := *;
      while n > 0
        invariant Safe() && (old(cancelled) ==> cancelled)
      {
        n := n - 1;
        var c := Conn();
        stale := stale || (c.Some? && c.value in closed);
        var cancel: bool := *;
        if cancel && running {
          running, cancelled := false, true;
        }
      }
    }

    // Tries to connect, whatever comes of it.
    method Dial() returns (answered: bool)
      requires Safe()
      modifies this`stale, this`cancelled, this`running, this`history
      ensures Safe() && (old(cancelled) ==> cancelled)
      ensures history == old(history) + [if answered then Success else Failure]
    {
      Others();
      answered := *;
      history := history + [if answered then Success else Failure];
    }

    // Waits between two dials; false when the run is cancelled meanwhile.
    method Sleep(d: int) returns (full: bool)
      requires Safe()
      modifies this`stale, this`cancelled, this`running, this`history
      ensures Safe() && (old(cancelled) ==> cancelled) && (!full ==> cancelled)
      ensures history == old(history) + [Waited(d)]
    {
      history := history + [Waited(d)];
      Others();
      if d <= 0 {
        return !cancelled;
      }
      full := *;
      if !full {
        cancelled := true;
      }
    }

    // Serves a connection until it drops; false when the run is cancelled first.
    method WaitForDrop() returns (dropped: bool)
      requires Safe()
      modifies this`stale, this`cancelled, this`running
      ensures Safe() && (old(cancelled) ==> cancelled) && (!dropped ==> cancelled)
    {
      Others();
      dropped := *;
      if !dropped {
        cancelled := true;
      }
    }

    // Where the run stands at the head of its loop.
    ghost predicate AtHead(backoff: int, retrying: bool)
      reads this
    {
      && Safe() && Recorded() && active.None?
      && backoff == Backoff(initial, factor, cap, Failures(history))
      && (if retrying then state == Disconnected && history != [] && CountTo(trace, Connecting) == 1
          else state == Stopped && trace == [] && history == [] && drops == 0)
    }

    // Where it stands when it has dialled, with `before` the history up to then.
    ghost predicate Dialled(before: seq<Attempt>, result: Attempt)
      reads this
    {
      && Safe() && active.None? && CountTo(trace, Connecting) == 1
      && history == before + [result] && BacksOff(history, initial, factor, cap)
      && Lifecycle(trace, state, before, drops)
      && state == if before == [] then Connecting else Disconnected
    }

    // A dial failed: only the first failure of a run shows in the trace.
    method NoteFailure(retrying: bool, ghost before: seq<Attempt>)
      requires Dialled(before, Failure) && retrying == (before != [])
      modifies this`state, this`trace
      ensures Safe() && Lifecycle(trace, state, history, drops) && CountTo(trace, Connecting) == 1 && state == Disconnected
    {
      hide Lifecycle, Chained, Successes, CountTo, BacksOff;
      if !retrying {
        LifecycleFailsFirst(trace, StateEvent(state, Disconnected, "dial failed"), before, drops);
        var _ := TransitionTo(Disconnected, "dial failed");
      } else {
        LifecycleGoesOn(trace, state, before, drops, Failure);
      }
    }

    // Backs off after a failure, unless the run is cancelled meanwhile.
    method Failed(backoff: int, retrying: bool, ghost before: seq<Attempt>) returns (next: int, stopped: bool)
      requires Dialled(before, Failure) && retrying == (before != [])
      requires backoff == Backoff(initial, factor, cap, Failures(before))
      modifies this
      ensures old(cancelled) ==> cancelled
      ensures stopped ==> Safe() && Recorded() && active.None? && state == Stopped && cancelled
      ensures !stopped ==> AtHead(next, true)
      ensures history == before + [Failure] + [Waited(backoff)] && drops == old(drops)
    {
      hide Lifecycle, Chained, Backoff, NextBackoff, Successes, Failures, BacksOff, CountTo;
      NoteFailure(retrying, before);
      AfterFailure(before, backoff, initial, factor, cap);
      LifecycleGoesOn(trace, state, history, drops, Waited(backoff));
      WaitBacksOff(before, backoff, initial, factor, cap);
      var full := Sleep(backoff);
      if !full {
        LifecycleStops(trace, StateEvent(state, Stopped, "manual disconnect"), history, drops);
        var _ := TransitionTo(Stopped, "manual disconnect");
        return backoff, true;
      }
      next, stopped := NextBackoff(backoff, factor, cap), false;
    }

    // A dial succeeded: the connection goes live.
    method Establish(ghost before: seq<Attempt>) returns (c: nat)
      requires Dialled(before, Success)
      modifies this
      ensures old(cancelled) ==> cancelled
      ensures Safe() && Recorded() && state == Connected && active == Some(c) && c < made
      ensures CountTo(trace, Connecting) == 1
      ensures history == old(history) && drops == old(drops)
    {
      hide Lifecycle, Chained, Backoff, Successes, BacksOff, CountTo;
      c := made;
      made := made + 1;
      active := Some(c);
      Others();
      LifecycleConnects(trace, StateEvent(state, Connected, "CER/CEA OK"), before, drops);
      var _ := TransitionTo(Connected, "CER/CEA OK");
    }

    // Takes the connection away from senders, then closes it.
    method TearDown(c: nat)
      requires Safe() && active == Some(c)
      modifies this`active, this`closed, this`stale, this`cancelled, this`running
      ensures Safe() && active.None? && c in closed && (old(cancelled) ==> cancelled)
    {
      if active == Some(c) {
        active := None;
      }
      Others();
      closed := closed + {c};
      Others();
    }

    // A dial succeeded: serve the connection until it drops or the run is cancelled.
    method Serve(ghost before: seq<Attempt>) returns (stopped: bool)
      requires Dialled(before, Success)
      modifies this
      ensures old(cancelled) ==> cancelled
      ensures stopped ==> Safe() && Recorded() && active.None? && state == Stopped && cancelled
      ensures !stopped ==> AtHead(initial, true) && drops == old(drops) + 1
      ensures history == old(history)
    {
      hide Lifecycle, Chained, Backoff, Successes, Failures, BacksOff, CountTo;
      var c := Establish(before);
      AfterSuccess(before, initial, factor, cap);
      var dropped := WaitForDrop();
      TearDown(c);
      if !dropped {
        LifecycleStops(trace, StateEvent(state, Stopped, "manual disconnect"), history, drops);
        var _ := TransitionTo(Stopped, "manual disconnect");
        return true;
      }
      LifecycleDrops(trace, StateEvent(state, Disconnected, "connection dropped"), history, drops);
      var _ := TransitionTo(Disconnected, "connection dropped");
      drops := drops + 1;
      stopped := false;
    }

    /** The lifecycle goroutine, watched for a number of dials. It ends only by
        cancellation, and then stopped. */
    method Run(horizon: nat) returns (ended: bool)
      requires Safe() && state == Stopped && active.None? && trace == [] && history == [] && drops == 0
      modifies this
      ensures Safe() && Recorded() && active.None?
      ensures ended ==> state == Stopped && cancelled
      ensures old(cancelled) && horizon > 0 ==> ended && trace == [] && history == []
    {
      hide Lifecycle, Chained, Backoff, Successes, Failures, BacksOff, CountTo;
      NothingHappened(initial, factor, cap);
      var backoff, retrying, left := initial, false, horizon;
      while left > 0
        invariant AtHead(backoff, retrying)
        invariant old(cancelled) ==> cancelled
        invariant left <= horizon && (if left < horizon then !old(cancelled) else !retrying)
      {
        left := left - 1;
        Others();
        if cancelled {
          if state != Stopped {
            LifecycleStops(trace, StateEvent(state, Stopped, "manual disconnect"), history, drops);
          }
          var _ := TransitionTo(Stopped, "manual disconnect");
          return true;
        }
        if !retrying {
          LifecycleStarts(trace, StateEvent(state, Connecting, "dialling"), history, drops);
          var _ := TransitionTo(Connecting, "dialling");
        }
        ghost var before := history;
        DialBacksOff(before, Success, initial, factor, cap);
        DialBacksOff(before, Failure, initial, factor, cap);
        var answered := Dial();
        var stopped: bool;
        if !answered {
          backoff, stopped := Failed(backoff, retrying, before);
          retrying := true;
        } else {
          stopped := Serve(before);
          backoff, retrying := initial, true;
        }
        if stopped {
          return true;
        }
      }
      ended := false;
    }
  }

  lemma AfterSuccess(history: seq<Attempt>, initial: int, factor: real, cap: int)
    ensures Backoff(initial, factor, cap, Failures(history + [Success])) == initial
  {
  }

  lemma AfterFailure(history: seq<Attempt>, w: int, initial: int, factor: real, cap: int)
    ensures Backoff(initial, factor, cap, Failures(history + [Failure] + [Waited(w)]))
         == NextBackoff(Backoff(initial, factor, cap, Failures(history)), factor, cap)
  {
    hide NextBackoff;
    HistoryExtend(history, Failure);
    HistoryExtend(history + [Failure], Waited(w));
  }

  lemma NothingHappened(initial: int, factor: real, cap: int)
    ensures Lifecycle([], Stopped, [], 0) && CountTo([], Connecting) == 0
    ensures BacksOff([], initial, factor, cap) && Backoff(initial, factor, cap, Failures([])) == initial
  {
  }
}
