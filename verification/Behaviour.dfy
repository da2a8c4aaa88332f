/** The credit-control behaviour around a sender: it marks sessions terminated,
    schedules re-authorisation and allots request numbers to the CCRs it sends
    itself. The critical sections are the methods of the class; the goroutines
    between them are the steps of a transition system. */
module Behaviour {
  import opened Text
  import opened Template
  import opened Session

  const SECOND_NS: int := 1_000_000_000
  const MIN_SCHEDULE_DELAY: int := 100_000_000
  const DEFAULT_REAUTH_MARGIN: int := 5_000_000_000

  datatype Entry = Entry(peer: string, number: uint32, terminated: bool, timer: Option<int>)

  datatype Book = Book(sessions: map<string, Entry>, stopped: bool)

  predicate Marked(book: Book, sid: string) {
    sid in book.sessions && book.sessions[sid].terminated
  }

  function NumberOf(book: Book, sid: string): uint32 {
    if sid in book.sessions then book.sessions[sid].number else 0
  }

  function CancelTimer(entry: Entry): Entry {
    entry.(timer := None)
  }

  // ---- what each critical section means -------------------------------

  /** Requests of a marked session do not pass, TERMINATE requests excepted. */
  predicate Passes(book: Book, req: Option<CCR>) {
    req.Some? && req.value.sessionID != "" && Marked(book, req.value.sessionID) ==> req.value.requestType == TERMINATE
  }

  predicate PermanentFailure(code: uint32) {
    5000 <= code <= 5999
  }

  function ReAuthDelay(validity: uint32, margin: int): int {
    var delay := Wrap64(Wrap64(validity * SECOND_NS) - margin);
    if delay < MIN_SCHEDULE_DELAY then MIN_SCHEDULE_DELAY else delay
  }

  // The session an answer is about.
  function Concerns(req: Option<CCR>, cca: CCA): string {
    if cca.sessionID == "" && req.Some? then req.value.sessionID else cca.sessionID
  }

  // The entry once the request is accounted for.
  function Tracked(book: Book, sid: string, peer: string, req: Option<CCR>): Entry {
    var entry := if sid in book.sessions then book.sessions[sid] else Entry(peer, 0, false, None);
    entry.(peer := peer,
           number := if req.Some? && req.value.requestNumber > entry.number then req.value.requestNumber else entry.number)
  }

  datatype Verdict = Failed | Final | Renewed | Plain

  function Judge(cca: CCA): Verdict {
    if PermanentFailure(cca.resultCode) then Failed
    else if cca.fuiAction == FUI_TERMINATE then Final
    else if cca.validityTime > 0 then Renewed
    else Plain
  }

  function Judged(entry: Entry, cca: CCA, margin: int): Entry {
    match Judge(cca)
    case Failed => entry.(terminated := true, timer := None)
    case Final => entry.(terminated := true, timer := None, number := Wrap32(entry.number + 1))
    case Renewed => entry.(timer := Some(ReAuthDelay(cca.validityTime, margin)))
    case Plain => entry
  }

  function Observe(book: Book, margin: int, peer: string, req: Option<CCR>, cca: Option<CCA>): Book {
    if cca.None? || Concerns(req, cca.value) == "" then book
    else
      var sid := Concerns(req, cca.value);
      book.(sessions := book.sessions[sid := Judged(Tracked(book, sid, peer, req), cca.value, margin)])
  }

  // The number allotted to an automatic CCR-Terminate.
  function Emitted(book: Book, peer: string, req: Option<CCR>, cca: Option<CCA>): Option<uint32> {
    if cca.None? || Concerns(req, cca.value) == "" || Judge(cca.value) != Final then None
    else Some(Wrap32(Tracked(book, Concerns(req, cca.value), peer, req).number + 1))
  }

  predicate MayFire(book: Book, sid: string) {
    sid in book.sessions && !book.sessions[sid].terminated && !book.stopped
  }

  function Fired(book: Book, sid: string): Book {
    if !MayFire(book, sid) then book
    else
      var entry := book.sessions[sid];
      book.(sessions := book.sessions[sid := entry.(number := Wrap32(entry.number + 1), timer := None)])
  }

  function StopAll(book: Book): Book {
    if book.stopped then book
    else Book(map sid | sid in book.sessions :: book.sessions[sid].(terminated := true, timer := None), true)
  }

  // ---- the critical sections ------------------------------------------

  class Behaviour {
    var sessions: map<string, Entry>
    var stopped: bool
    const margin: int

    ghost function State(): Book
      reads this
    {
      Book(sessions, stopped)
    }

    constructor (reAuthMargin: int)
      ensures State() == Book(map[], false)
      ensures margin > 0 && (reAuthMargin > 0 ==> margin == reAuthMargin)
    {
      sessions, stopped := map[], false;
      margin := if reAuthMargin <= 0 then DEFAULT_REAUTH_MARGIN else reAuthMargin;
    }

    /** The first critical section of Send. */
    method Guard(req: Option<CCR>) returns (ok: bool)
      ensures ok <==> Passes(State(), req)
    {
      ok := true;
      if req.Some? && req.value.sessionID != "" {
        var terminated := req.value.sessionID in sessions && sessions[req.value.sessionID].terminated;
        if terminated && req.value.requestType != TERMINATE {
          return false;
        }
      }
    }

    /** The second critical section of Send, after the inner sender answered. */
    method ObserveCCA(peer: string, req: Option<CCR>, cca: Option<CCA>) returns (emit: Option<uint32>)
      modifies this
      ensures State() == Observe(old(State()), margin, peer, req, cca)
      ensures emit == Emitted(old(State()), peer, req, cca)
    {
      hide Wrap32, Wrap64, PermanentFailure;
      emit := None;
      if cca.None? {
        return;
      }
      var sid := cca.value.sessionID;
      if sid == "" && req.Some? {
        sid := req.value.sessionID;
      }
      if sid == "" {
        return;
      }
      var entry := if sid in sessions then sessions[sid] else Entry(peer, 0, false, None);
      entry := entry.(peer := peer);
      if req.Some? && req.value.requestNumber > entry.number {
        entry := entry.(number := req.value.requestNumber);
      }
      if PermanentFailure(cca.value.resultCode) {
        entry := CancelTimer(entry.(terminated := true));
      } else if cca.value.fuiAction == FUI_TERMINATE {
        entry := CancelTimer(entry.(terminated := true));
        var next := Wrap32(entry.number + 1);
        entry := entry.(number := next);
        emit := Some(next);
      } else if cca.value.validityTime > 0 {
        entry := CancelTimer(entry);
        var delay := Wrap64(Wrap64(cca.value.validityTime * SECOND_NS) - margin);
        if delay < MIN_SCHEDULE_DELAY {
          delay := MIN_SCHEDULE_DELAY;
        }
        entry := entry.(timer := Some(delay));
      }
      sessions := sessions[sid := entry];
    }

    /** The critical section of the timer callback: the number of the CCR-Update to send. */
    method FireReAuth(sid: string) returns (number: Option<uint32>)
      modifies this
      ensures State() == Fired(old(State()), sid)
      ensures number == if MayFire(old(State()), sid) then Some(Wrap32(old(sessions[sid]).number + 1)) else None
    {
      if sid !in sessions || sessions[sid].terminated || stopped {
        return None;
      }
      var next := Wrap32(sessions[sid].number + 1);
      sessions := sessions[sid := sessions[sid].(number := next, timer := None)];
      number := Some(next);
    }

    /** Marks every tracked session and cancels its timer. */
    method Stop()
      modifies this
      ensures State() == StopAll(old(State()))
    {
      if stopped {
        return;
      }
      stopped := true;
      var left := sessions.Keys;
      while left != {}
        invariant stopped && left <= sessions.Keys == old(sessions).Keys
        invariant forall sid :: sid in left ==> sessions[sid] == old(sessions)[sid]
        invariant forall sid :: sid in sessions && sid !in left ==>
          sessions[sid] == old(sessions)[sid].(terminated := true, timer := None)
        decreases |left|
      {
        var sid :| sid in left;
        sessions := sessions[sid := CancelTimer(sessions[sid]).(terminated := true)];
        left := left - {sid};
      }
    }
  }

  // ---- the goroutines -------------------------------------------------

  datatype Origin = Caller | ReAuth | AutoTerminate

  datatype Phase = AtGuard | Passed | Inside

  datatype Call = Call(origin: Origin, peer: string, req: Option<CCR>, phase: Phase)

  // Request numbers a session has seen and numbers allotted in it.
  datatype Numbering = Seen(sid: string, number: uint32) | Allotted(sid: string, number: uint32)

  datatype System = System(
    book: Book,
    calls: map<nat, Call>,        // sends in progress
    wire: seq<Call>,              // sends that reached the inner sender, in order
    numbers: seq<Numbering>)

  const INITIAL_SYSTEM := System(Book(map[], false), map[], [], [])

  /** One atomic step. A builder hook answers any CCR or none; a timer that was
      cancelled may still fire, so ReAuthFires is always possible. */
  datatype Action =
    | Invoke(id: nat, peer: string, req: Option<CCR>)
    | RunGuard(id: nat)
    | Reach(id: nat)
    | Answer(id: nat, reply: Option<Option<CCA>>, built: Option<CCR>, next: nat)
    | ReAuthFires(sid: string, built: Option<CCR>, next: nat)
    | StopEverything

  predicate Enabled(sys: System, a: Action) {
    match a
    case Invoke(id, _, _) => id !in sys.calls
    case RunGuard(id) => id in sys.calls && sys.calls[id].phase == AtGuard
    case Reach(id) => id in sys.calls && sys.calls[id].phase == Passed
    case Answer(id, _, _, next) => id in sys.calls && sys.calls[id].phase == Inside && next !in sys.calls
    case ReAuthFires(_, _, next) => next !in sys.calls
    case StopEverything => true
  }

  // The built CCR with the fields the behaviour imposes.
  function OutOfBand(built: CCR, sid: string, kind: uint32, number: uint32): Option<CCR> {
    Some(built.(sessionID := sid, requestType := kind, requestNumber := number))
  }

  function Noted(req: Option<CCR>, sid: string): seq<Numbering> {
    if req.Some? then [Seen(sid, req.value.requestNumber)] else []
  }

  function AfterAnswer(sys: System, margin: int, call: Call, cca: Option<CCA>, built: Option<CCR>, next: nat): System {
    if cca.None? || Concerns(call.req, cca.value) == "" then sys
    else
      var sid := Concerns(call.req, cca.value);
      var emit := Emitted(sys.book, call.peer, call.req, cca);
      sys.(book := Observe(sys.book, margin, call.peer, call.req, cca),
           numbers := sys.numbers + Noted(call.req, sid) + (if emit.Some? then [Allotted(sid, emit.value)] else []),
           calls := if emit.Some? && built.Some?
                    then sys.calls[next := Call(AutoTerminate, call.peer, OutOfBand(built.value, sid, TERMINATE, emit.value), Passed)]
                    else sys.calls)
  }

  function AfterFire(sys: System, sid: string, built: Option<CCR>, next: nat): System {
    if !MayFire(sys.book, sid) then sys
    else
      var number := Wrap32(sys.book.sessions[sid].number + 1);
      sys.(book := Fired(sys.book, sid),
           numbers := sys.numbers + [Allotted(sid, number)],
           calls := if built.Some?
                    then sys.calls[next := Call(ReAuth, sys.book.sessions[sid].peer, OutOfBand(built.value, sid, UPDATE, number), AtGuard)]
                    else sys.calls)
  }

  function Step(sys: System, margin: int, a: Action): System
    requires Enabled(sys, a)
  {
    match a
    case Invoke(id, peer, req) => sys.(calls := sys.calls[id := Call(Caller, peer, req, AtGuard)])
    case RunGuard(id) =>
      if Passes(sys.book, sys.calls[id].req) then sys.(calls := sys.calls[id := sys.calls[id].(phase := Passed)])
      else sys.(calls := sys.calls - {id})
    case Reach(id) =>
      sys.(calls := sys.calls[id := sys.calls[id].(phase := Inside)], wire := sys.wire + [sys.calls[id]])
    case Answer(id, reply, built, next) =>
      var call := sys.calls[id];
      var left := sys.(calls := sys.calls - {id});
      if reply.None? || call.origin == AutoTerminate then left
      else AfterAnswer(left, margin, call, reply.value, built, next)
    case ReAuthFires(sid, built, next) => AfterFire(sys, sid, built, next)
    case StopEverything => sys.(book := StopAll(sys.book))
  }

  predicate Possible(sys: System, margin: int, run: seq<Action>)
    decreases |run|
  {
    run == [] || (Enabled(sys, run[0]) && Possible(Step(sys, margin, run[0]), margin, run[1..]))
  }

  function Run(sys: System, margin: int, run: seq<Action>): System
    requires Possible(sys, margin, run)
    decreases |run|
  {
    if run == [] then sys else Run(Step(sys, margin, run[0]), margin, run[1..])
  }

  // ---- termination ----------------------------------------------------

  // A request of the session other than a TERMINATE.
  predicate Unwanted(call: Call, sid: string) {
    call.req.Some? && call.req.value.sessionID == sid && call.req.value.requestType != TERMINATE
  }

  function PastGuard(sys: System, sid: string): set<nat> {
    set id | id in sys.calls && sys.calls[id].phase == Passed && Unwanted(sys.calls[id], sid)
  }

  function Reached(wire: seq<Call>, sid: string): nat {
    if wire == [] then 0
    else Reached(wire[..|wire| - 1], sid) + (if Unwanted(wire[|wire| - 1], sid) then 1 else 0)
  }

  lemma ReachedExtend(wire: seq<Call>, call: Call, sid: string)
    ensures Reached(wire + [call], sid) == Reached(wire, sid) + (if Unwanted(call, sid) then 1 else 0)
  {
    assert (wire + [call])[..|wire|] == wire;
  }

  // The mark survives every step.
  lemma MarkKept(sys: System, margin: int, a: Action, sid: string)
    requires Enabled(sys, a) && Marked(sys.book, sid)
    ensures Marked(Step(sys, margin, a).book, sid)
  {
  }

  lemma AnswerKeepsPast(sys: System, margin: int, id: nat, call: Call, cca: Option<CCA>, built: Option<CCR>, next: nat, sid: string)
    requires id in sys.calls && sys.calls[id].phase == Inside && next !in sys.calls
    ensures var left := sys.(calls := sys.calls - {id});
      var sys' := AfterAnswer(left, margin, call, cca, built, next);
      PastGuard(left, sid) == PastGuard(sys, sid) && PastGuard(sys', sid) == PastGuard(sys, sid) && sys'.wire == sys.wire
  {
    hide Observe, Emitted;
  }

  lemma FireKeepsPast(sys: System, sid: string, built: Option<CCR>, next: nat, other: string)
    requires next !in sys.calls
    ensures var sys' := AfterFire(sys, sid, built, next);
      PastGuard(sys', other) == PastGuard(sys, other) && sys'.wire == sys.wire
  {
  }

  lemma ReachMovesOne(sys: System, margin: int, id: nat, sid: string)
    requires Enabled(sys, Reach(id))
    ensures var sys' := Step(sys, margin, Reach(id));
      Reached(sys'.wire, sid) + |PastGuard(sys', sid)| == Reached(sys.wire, sid) + |PastGuard(sys, sid)|
  {
    hide Reached;
    ReachedExtend(sys.wire, sys.calls[id], sid);
    assert PastGuard(Step(sys, margin, Reach(id)), sid) == PastGuard(sys, sid) - {id};
  }

  // Nobody new gets past the guard of a marked session.
  lemma GuardKeepsPast(sys: System, margin: int, a: Action, sid: string)
    requires Enabled(sys, a) && Marked(sys.book, sid) && sid != "" && (a.Invoke? || a.RunGuard? || a.StopEverything?)
    ensures var sys' := Step(sys, margin, a); PastGuard(sys', sid) == PastGuard(sys, sid) && sys'.wire == sys.wire
  {
    hide StopAll;
  }

  // A step either leaves the calls past the guard alone or moves one of them on to the wire.
  lemma StepConserves(sys: System, margin: int, a: Action, sid: string)
    requires Enabled(sys, a) && Marked(sys.book, sid) && sid != ""
    ensures var sys' := Step(sys, margin, a);
      Reached(sys'.wire, sid) + |PastGuard(sys', sid)| == Reached(sys.wire, sid) + |PastGuard(sys, sid)|
  {
    match a
    case Reach(id) =>
      ReachMovesOne(sys, margin, id, sid);
    case Answer(id, reply, built, next) =>
      hide AfterAnswer, AfterFire, Reached, PastGuard;
      AnswerKeepsPast(sys, margin, id, sys.calls[id], if reply.Some? then reply.value else None, built, next, sid);
    case ReAuthFires(of, built, next) =>
      hide AfterAnswer, AfterFire, Reached, PastGuard;
      FireKeepsPast(sys, of, built, next, sid);
    case _ =>
      GuardKeepsPast(sys, margin, a, sid);
  }

  /** Termination safety: once a session is marked it stays marked, and the
      requests other than TERMINATE that still reach the inner sender are
      exactly those that had passed the guard by then, less those still on
      their way. */
  lemma {:induction false} TerminationSafety(sys: System, margin: int, run: seq<Action>, sid: string)
    requires Possible(sys, margin, run) && Marked(sys.book, sid) && sid != ""
    ensures var end := Run(sys, margin, run);
      && Marked(end.book, sid)
      && Reached(end.wire, sid) - Reached(sys.wire, sid) == |PastGuard(sys, sid)| - |PastGuard(end, sid)|
    decreases |run|
  {
    if run != [] {
      MarkKept(sys, margin, run[0], sid);
      StepConserves(sys, margin, run[0], sid);
      TerminationSafety(Step(sys, margin, run[0]), margin, run[1..], sid);
    }
  }

  /** Stopping marks every session tracked so far. */
  lemma StopMarks(sys: System, margin: int, sid: string)
    requires sid in sys.book.sessions && !sys.book.stopped
    ensures Marked(Step(sys, margin, StopEverything).book, sid)
    ensures Step(sys, margin, StopEverything).book.sessions[sid].timer.None?
  {
  }

  // ---- re-authorisation -----------------------------------------------

  /** Re-authorisation is armed at least 100 ms ahead and strictly before the
      Validity-Time elapses; otherwise exactly the margin ahead of it. The
      64-bit arithmetic never wraps. */
  lemma ReAuthInTime(validity: uint32, margin: int64)
    requires validity > 0 && margin > 0
    ensures MIN_SCHEDULE_DELAY <= ReAuthDelay(validity, margin) < validity * SECOND_NS
    ensures validity * SECOND_NS - margin >= MIN_SCHEDULE_DELAY ==> ReAuthDelay(validity, margin) == validity * SECOND_NS - margin
    ensures validity * SECOND_NS < TWO_63 && -TWO_63 <= validity * SECOND_NS - margin
  {
  }

  /** An answer leaves a timer on a marked session exactly when it is neither a
      permanent failure nor final and carries a Validity-Time, or the session
      was marked with a timer before and the answer is plain. */
  lemma TimerOnMarked(book: Book, margin: int, peer: string, req: Option<CCR>, cca: CCA)
    requires Concerns(req, cca) != ""
    ensures var sid := Concerns(req, cca);
      var book' := Observe(book, margin, peer, req, Some(cca));
      (Marked(book', sid) && book'.sessions[sid].timer.Some?)
      <==> (Marked(book, sid) && (Judge(cca) == Renewed || (Judge(cca) == Plain && book.sessions[sid].timer.Some?)))
  {
  }

  /** Such a timer changes nothing when it fires, and neither does any timer after a stop. */
  lemma MarkedFiresNothing(sys: System, sid: string, built: Option<CCR>, next: nat)
    requires Marked(sys.book, sid) || sys.book.stopped
    ensures AfterFire(sys, sid, built, next) == sys
  {
  }

  // ---- numbering ------------------------------------------------------

  /** Each allotted number exceeds every earlier number of its session. */
  ghost predicate Increasing(numbers: seq<Numbering>) {
    forall i, j :: 0 <= j < i < |numbers| && numbers[i].Allotted? && numbers[j].sid == numbers[i].sid ==>
      numbers[j].number < numbers[i].number
  }

  /** Some number was allotted after its session had used the last 32-bit number. */
  ghost predicate Exhausted(numbers: seq<Numbering>) {
    exists i, j :: 0 <= j < i < |numbers| && numbers[i].Allotted? && numbers[j].sid == numbers[i].sid
                   && numbers[j].number == TWO_32 - 1
  }

  ghost predicate Mentioned(numbers: seq<Numbering>, sid: string, n: uint32) {
    exists i :: 0 <= i < |numbers| && numbers[i].sid == sid && numbers[i].number == n
  }

  // The book holds the highest number of every session.
  ghost predicate Highest(book: Book, numbers: seq<Numbering>) {
    && (forall i :: 0 <= i < |numbers| ==> numbers[i].number <= NumberOf(book, numbers[i].sid))
    && (forall sid :: NumberOf(book, sid) > 0 ==> Mentioned(numbers, sid, NumberOf(book, sid)))
  }

  ghost predicate OthersKept(book: Book, book': Book, sid: string) {
    forall other :: other != sid ==> NumberOf(book', other) == NumberOf(book, other)
  }

  lemma MentionedLater(numbers: seq<Numbering>, e: Numbering, sid: string, n: uint32)
    requires Mentioned(numbers, sid, n) || (e.sid == sid && e.number == n)
    ensures Mentioned(numbers + [e], sid, n)
  {
    if e.sid == sid && e.number == n {
      assert (numbers + [e])[|numbers|] == e;
    } else {
      var i :| 0 <= i < |numbers| && numbers[i].sid == sid && numbers[i].number == n;
      assert (numbers + [e])[i] == numbers[i];
    }
  }

  // Appending an entry and raising the session to it keeps the book highest.
  lemma HighestExtend(book: Book, book': Book, numbers: seq<Numbering>, e: Numbering)
    requires Highest(book, numbers) && OthersKept(book, book', e.sid)
    requires NumberOf(book', e.sid) == if e.number > NumberOf(book, e.sid) then e.number else NumberOf(book, e.sid)
    ensures Highest(book', numbers + [e])
  {
    hide NumberOf, Mentioned;
    forall sid | NumberOf(book', sid) > 0
      ensures Mentioned(numbers + [e], sid, NumberOf(book', sid))
    {
      MentionedLater(numbers, e, sid, NumberOf(book', sid));
    }
  }

  lemma SeenKeeps(book: Book, book': Book, numbers: seq<Numbering>, sid: string, n: uint32)
    requires Highest(book, numbers) && Increasing(numbers) && OthersKept(book, book', sid)
    requires NumberOf(book', sid) == if n > NumberOf(book, sid) then n else NumberOf(book, sid)
    ensures Highest(book', numbers + [Seen(sid, n)]) && Increasing(numbers + [Seen(sid, n)])
  {
    HighestExtend(book, book', numbers, Seen(sid, n));
  }

  lemma UsedUp(book: Book, numbers: seq<Numbering>, sid: string, n: uint32)
    requires Highest(book, numbers) && NumberOf(book, sid) == TWO_32 - 1
    ensures Exhausted(numbers + [Allotted(sid, n)])
  {
    var j :| 0 <= j < |numbers| && numbers[j].sid == sid && numbers[j].number == TWO_32 - 1;
    var longer := numbers + [Allotted(sid, n)];
    assert longer[|numbers|].Allotted? && longer[j] == numbers[j];
  }

  lemma AllotKeeps(book: Book, book': Book, numbers: seq<Numbering>, sid: string, n: uint32)
    requires Highest(book, numbers) && Increasing(numbers) && OthersKept(book, book', sid)
    requires NumberOf(book', sid) == n == Wrap32(NumberOf(book, sid) + 1)
    requires !Exhausted(numbers + [Allotted(sid, n)])
    ensures Highest(book', numbers + [Allotted(sid, n)]) && Increasing(numbers + [Allotted(sid, n)])
  {
    if NumberOf(book, sid) == TWO_32 - 1 {
      UsedUp(book, numbers, sid, n);
    }
    HighestExtend(book, book', numbers, Allotted(sid, n));
  }

  lemma ExhaustedLater(numbers: seq<Numbering>, longer: seq<Numbering>)
    requires numbers <= longer
    ensures Exhausted(numbers) ==> Exhausted(longer)
  {
    if Exhausted(numbers) {
      var i, j :| 0 <= j < i < |numbers| && numbers[i].Allotted? && numbers[j].sid == numbers[i].sid
                  && numbers[j].number == TWO_32 - 1;
      assert longer[i] == numbers[i] && longer[j] == numbers[j];
    }
  }

  lemma SameKeeps(book: Book, book': Book, numbers: seq<Numbering>)
    requires Highest(book, numbers) && (forall sid :: NumberOf(book', sid) == NumberOf(book, sid))
    ensures Highest(book', numbers)
  {
  }

  lemma AnswerNumbering(sys: System, margin: int, call: Call, cca: CCA, built: Option<CCR>, next: nat)
    requires Highest(sys.book, sys.numbers) && Increasing(sys.numbers) && Concerns(call.req, cca) != ""
    requires !Exhausted(AfterAnswer(sys, margin, call, Some(cca), built, next).numbers)
    ensures var sys' := AfterAnswer(sys, margin, call, Some(cca), built, next);
      Highest(sys'.book, sys'.numbers) && Increasing(sys'.numbers)
  {
    hide Highest, Increasing, Exhausted, Wrap32;
    var sid := Concerns(call.req, cca);
    var entry := Tracked(sys.book, sid, call.peer, call.req);
    var tracked := sys.book.(sessions := sys.book.sessions[sid := entry]);
    var noted := sys.numbers + Noted(call.req, sid);
    if call.req.Some? {
      SeenKeeps(sys.book, tracked, sys.numbers, sid, call.req.value.requestNumber);
    } else {
      assert noted == sys.numbers;
      SameKeeps(sys.book, tracked, sys.numbers);
    }
    var sys' := AfterAnswer(sys, margin, call, Some(cca), built, next);
    if Judge(cca) == Final {
      AllotKeeps(tracked, sys'.book, noted, sid, Wrap32(entry.number + 1));
    } else {
      assert sys'.numbers == noted;
      SameKeeps(tracked, sys'.book, noted);
    }
  }

  lemma NothingObserved(sys: System, margin: int, call: Call, cca: Option<CCA>, built: Option<CCR>, next: nat)
    ensures cca.None? || Concerns(call.req, cca.value) == "" ==> AfterAnswer(sys, margin, call, cca, built, next) == sys
  {
  }

  lemma StepNumbering(sys: System, margin: int, a: Action)
    requires Enabled(sys, a) && Highest(sys.book, sys.numbers) && Increasing(sys.numbers)
    requires !Exhausted(Step(sys, margin, a).numbers)
    ensures var sys' := Step(sys, margin, a);
      Highest(sys'.book, sys'.numbers) && Increasing(sys'.numbers)
  {
    hide Highest, Increasing, Exhausted, AfterAnswer, Wrap32;
    var sys' := Step(sys, margin, a);
    match a
    case Answer(id, reply, built, next) =>
      var call := sys.calls[id];
      var left := sys.(calls := sys.calls - {id});
      if reply.Some? && call.origin != AutoTerminate {
        NothingObserved(left, margin, call, reply.value, built, next);
        if reply.value.Some? && Concerns(call.req, reply.value.value) != "" {
          AnswerNumbering(left, margin, call, reply.value.value, built, next);
        }
      }
    case ReAuthFires(sid, built, next) =>
      if MayFire(sys.book, sid) {
        AllotKeeps(sys.book, sys'.book, sys.numbers, sid, Wrap32(sys.book.sessions[sid].number + 1));
      }
    case _ => SameKeeps(sys.book, sys'.book, sys.numbers);
  }

  lemma StepExtends(sys: System, margin: int, a: Action)
    requires Enabled(sys, a)
    ensures sys.numbers <= Step(sys, margin, a).numbers
  {
  }

  lemma {:induction false} RunExtends(sys: System, margin: int, run: seq<Action>)
    requires Possible(sys, margin, run)
    ensures sys.numbers <= Run(sys, margin, run).numbers
    decreases |run|
  {
    if run != [] {
      StepExtends(sys, margin, run[0]);
      RunExtends(Step(sys, margin, run[0]), margin, run[1..]);
    }
  }

  lemma {:induction false} RunNumbering(sys: System, margin: int, run: seq<Action>)
    requires Possible(sys, margin, run) && Highest(sys.book, sys.numbers) && Increasing(sys.numbers)
    requires !Exhausted(Run(sys, margin, run).numbers)
    ensures Increasing(Run(sys, margin, run).numbers)
    decreases |run|
  {
    hide Highest, Increasing, Exhausted, Step;
    if run != [] {
      var sys' := Step(sys, margin, run[0]);
      RunExtends(sys', margin, run[1..]);
      ExhaustedLater(sys'.numbers, Run(sys, margin, run).numbers);
      StepNumbering(sys, margin, run[0]);
      RunNumbering(sys', margin, run[1..]);
    }
  }

  /** Out-of-band numbering: over any interleaving, every number allotted to a
      re-authorisation or an automatic CCR-Terminate exceeds all numbers seen
      or allotted in its session before, if and only if no session allots a
      number after using the last 32-bit one. */
  lemma AllottedIncrease(margin: int, run: seq<Action>)
    requires Possible(INITIAL_SYSTEM, margin, run)
    ensures var numbers := Run(INITIAL_SYSTEM, margin, run).numbers;
      Increasing(numbers) <==> !Exhausted(numbers)
  {
    var numbers := Run(INITIAL_SYSTEM, margin, run).numbers;
    if !Exhausted(numbers) {
      RunNumbering(INITIAL_SYSTEM, margin, run);
    }
  }

  // ---- out-of-band requests -------------------------------------------

  // A request the behaviour made itself carries an allotted number and its own type.
  predicate Proper(call: Call, numbers: seq<Numbering>) {
    call.origin == Caller
    || (&& call.req.Some?
        && call.req.value.requestType == (if call.origin == ReAuth then UPDATE else TERMINATE)
        && Allotted(call.req.value.sessionID, call.req.value.requestNumber) in numbers)
  }

  ghost predicate AllProper(sys: System) {
    && (forall id :: id in sys.calls ==> Proper(sys.calls[id], sys.numbers))
    && (forall i :: 0 <= i < |sys.wire| ==> Proper(sys.wire[i], sys.numbers))
  }

  lemma StepProper(sys: System, margin: int, a: Action)
    requires Enabled(sys, a) && AllProper(sys)
    ensures AllProper(Step(sys, margin, a))
  {
  }

  /** Every request the behaviour sends itself, over any interleaving, is an
      UPDATE (re-authorisation) or TERMINATE (final unit) with a number
      allotted in its session. */
  lemma {:induction false} OutOfBandProper(sys: System, margin: int, run: seq<Action>)
    requires Possible(sys, margin, run) && AllProper(sys)
    ensures AllProper(Run(sys, margin, run))
    decreases |run|
  {
    hide AllProper, Step;
    if run != [] {
      StepProper(sys, margin, run[0]);
      OutOfBandProper(Step(sys, margin, run[0]), margin, run[1..]);
    }
  }
}
