/** The end-to-end-id correlator: concurrent sends wait on one-shot channels
    that answers, failures, cancellations and connection drops resolve. Each
    critical section and channel operation is one atomic step. */
module Correlator {
  import opened Text

  datatype Message = Message(endToEnd: uint32, body: string)

  datatype Outcome = Got(answer: Message) | Dropped | WriteFailed | Cancelled

  datatype Waiter = Writing | Waiting | Returned(outcome: Outcome)

  /** A channel of capacity one together with the send that waits on it. */
  datatype Chan = Chan(id: uint32, buffer: Option<Message>, closed: bool, sends: nat, waiter: Waiter)

  datatype Transit = Transit(chan: nat, message: Message)

  datatype State = State(
    pending: map<uint32, nat>,    // waiting requests by end-to-end id
    chans: seq<Chan>,             // every channel ever made
    transit: map<nat, Transit>,   // answers looked up and not yet put on a channel
    panicked: bool,               // a closed channel was closed again or sent on
    discarded: nat)               // answers that found a full channel

  const START := State(map[], [], map[], false, 0)

  // ---- what each step means -------------------------------------------

  datatype Action =
    | Register(id: uint32)
    | WriteSucceeds(chan: nat)
    | WriteFails(chan: nat)
    | Lookup(dispatch: nat, message: Option<Message>)
    | Put(dispatch: nat)
    | Receive(chan: nat)
    | Cancel(chan: nat)
    | CloseAll

  predicate InPhase(st: State, c: nat, w: Waiter) {
    c < |st.chans| && st.chans[c].waiter == w
  }

  predicate Enabled(st: State, a: Action) {
    match a
    case Register(_) => true
    case WriteSucceeds(c) => InPhase(st, c, Writing)
    case WriteFails(c) => InPhase(st, c, Writing)
    case Lookup(d, _) => d !in st.transit
    case Put(d) => d in st.transit && st.transit[d].chan < |st.chans|
    case Receive(c) => InPhase(st, c, Waiting) && (st.chans[c].buffer.Some? || st.chans[c].closed)
    case Cancel(c) => InPhase(st, c, Waiting)
    case CloseAll => forall id :: id in st.pending ==> st.pending[id] < |st.chans|
  }

  function Registered(st: State, id: uint32): State {
    st.(chans := st.chans + [Chan(id, None, false, 0, Writing)], pending := st.pending[id := |st.chans|])
  }

  function WithWaiter(st: State, c: nat, w: Waiter): State
    requires c < |st.chans|
  {
    st.(chans := st.chans[c := st.chans[c].(waiter := w)])
  }

  // The send gives up: its id is deregistered, whichever channel it names.
  function GivenUp(st: State, c: nat, o: Outcome): State
    requires c < |st.chans|
  {
    WithWaiter(st.(pending := st.pending - {st.chans[c].id}), c, Returned(o))
  }

  function LookedUp(st: State, d: nat, message: Option<Message>): State {
    if message.None? || message.value.endToEnd !in st.pending then st
    else
      var id := message.value.endToEnd;
      st.(pending := st.pending - {id}, transit := st.transit[d := Transit(st.pending[id], message.value)])
  }

  // A send on a closed channel panics, one on a full channel takes the default branch.
  function PutOn(st: State, c: nat, message: Message): State
    requires c < |st.chans|
  {
    var ch := st.chans[c];
    if ch.closed then st.(panicked := true)
    else if ch.buffer.Some? then st.(discarded := st.discarded + 1)
    else st.(chans := st.chans[c := ch.(buffer := Some(message), sends := ch.sends + 1)])
  }

  function Received(st: State, c: nat): State
    requires c < |st.chans| && (st.chans[c].buffer.Some? || st.chans[c].closed)
  {
    var ch := st.chans[c];
    if ch.buffer.Some? then
      st.(chans := st.chans[c := ch.(buffer := None, waiter := Returned(Got(ch.buffer.value)))])
    else WithWaiter(st, c, Returned(Dropped))
  }

  function Targets(pending: map<uint32, nat>, ids: set<uint32>): set<nat>
    requires ids <= pending.Keys
  {
    set id | id in ids :: pending[id]
  }

  function Closed(chans: seq<Chan>, targets: set<nat>): (r: seq<Chan>)
    ensures |r| == |chans|
  {
    seq(|chans|, c requires 0 <= c < |chans| => if c in targets then chans[c].(closed := true) else chans[c])
  }

  // Closing the channels of these ids closes one that is closed already.
  predicate ClosesTwice(chans: seq<Chan>, pending: map<uint32, nat>, ids: set<uint32>)
    requires ids <= pending.Keys && (forall id :: id in pending ==> pending[id] < |chans|)
  {
    exists id :: id in ids &&
      (chans[pending[id]].closed || exists other :: other in ids && other != id && pending[other] == pending[id])
  }

  function AllClosed(st: State): State
    requires Enabled(st, CloseAll)
  {
    st.(pending := map[],
        chans := Closed(st.chans, Targets(st.pending, st.pending.Keys)),
        panicked := st.panicked || ClosesTwice(st.chans, st.pending, st.pending.Keys))
  }

  function Step(st: State, a: Action): State
    requires Enabled(st, a)
  {
    match a
    case Register(id) => Registered(st, id)
    case WriteSucceeds(c) => WithWaiter(st, c, Waiting)
    case WriteFails(c) => GivenUp(st, c, WriteFailed)
    case Lookup(d, message) => LookedUp(st, d, message)
    case Put(d) => PutOn(st.(transit := st.transit - {d}), st.transit[d].chan, st.transit[d].message)
    case Receive(c) => Received(st, c)
    case Cancel(c) => GivenUp(st, c, Cancelled)
    case CloseAll => AllClosed(st)
  }

  // ---- the correlator -------------------------------------------------

  class PeerCorrelator {
    var pending: map<uint32, nat>
    var chans: seq<Chan>
    var transit: map<nat, Transit>
    var panicked: bool
    var discarded: nat

    ghost function Contents(): State
      reads this
    {
      State(pending, chans, transit, panicked, discarded)
    }

    constructor ()
      ensures Contents() == START
    {
      pending, chans, transit, panicked, discarded := map[], [], map[], false, 0;
    }

    method Register(id: uint32) returns (ch: nat)
      modifies this
      ensures Contents() == Registered(old(Contents()), id)
      ensures ch < |chans| && pending[id] == ch
    {
      ch := |chans|;
      chans := chans + [Chan(id, None, false, 0, Writing)];
      pending := pending[id := ch];
    }

    method Deregister(id: uint32)
      modifies this`pending
      ensures pending == old(pending) - {id}
    {
      pending := pending - {id};
    }

    /** The locked half of dispatch. */
    method Lookup(d: nat, message: Option<Message>)
      requires Enabled(Contents(), Action.Lookup(d, message))
      modifies this
      ensures Contents() == LookedUp(old(Contents()), d, message)
    {
      if message.None? {
        return;
      }
      var id := message.value.endToEnd;
      if id !in pending {
        return;
      }
      var ch := pending[id];
      Deregister(id);
      transit := transit[d := Transit(ch, message.value)];
    }

    /** The non-blocking send that ends dispatch. */
    method Put(d: nat)
      requires Enabled(Contents(), Action.Put(d))
      modifies this
      ensures Contents() == Step(old(Contents()), Action.Put(d))
    {
      var t := transit[d];
      transit := transit - {d};
      var ch := chans[t.chan];
      if ch.closed {
        panicked := true;
      } else if ch.buffer.None? {
        chans := chans[t.chan := ch.(buffer := Some(t.message), sends := ch.sends + 1)];
      } else {
        discarded := discarded + 1;
      }
    }

    /** Closes and removes every pending channel, in any order. */
    method CloseAll()
      requires Enabled(Contents(), Action.CloseAll)
      modifies this
      ensures Contents() == AllClosed(old(Contents()))
    {
      hide Closed, Targets, ClosesTwice;
      ghost var chans0, pending0, panicked0, done := chans, pending, panicked, {};
      CloseNone(chans0, pending0);
      while pending.Keys != {}
        invariant done <= pending0.Keys && pending == pending0 - done
        invariant chans == Closed(chans0, Targets(pending0, done))
        invariant panicked == (panicked0 || ClosesTwice(chans0, pending0, done))
        invariant transit == old(transit) && discarded == old(discarded)
        decreases pending.Keys
      {
        var id :| id in pending;
        var ch := pending[id];
        CloseOneMore(chans0, pending0, done, id);
        if chans[ch].closed {
          panicked := true;
        } else {
          chans := chans[ch := chans[ch].(closed := true)];
        }
        Deregister(id);
        done := done + {id};
      }
      assert done == pending0.Keys;
    }

    /** The select of a waiting send whose answer or close has come. */
    method Receive(c: nat) returns (o: Outcome)
      requires Enabled(Contents(), Action.Receive(c))
      modifies this
      ensures Contents() == Received(old(Contents()), c)
      ensures o == chans[c].waiter.outcome
    {
      if chans[c].buffer.Some? {
        o := Got(chans[c].buffer.value);
        chans := chans[c := chans[c].(buffer := None, waiter := Returned(o))];
      } else {
        o := Dropped;
        chans := chans[c := chans[c].(waiter := Returned(o))];
      }
    }

    /** A send that failed to write or whose context ended. */
    method GiveUp(c: nat, o: Outcome)
      requires c < |chans|
      modifies this
      ensures Contents() == GivenUp(old(Contents()), c, o)
    {
      Deregister(chans[c].id);
      chans := chans[c := chans[c].(waiter := Returned(o))];
    }
  }

  lemma CloseNone(chans: seq<Chan>, pending: map<uint32, nat>)
    requires forall i :: i in pending ==> pending[i] < |chans|
    ensures Closed(chans, Targets(pending, {})) == chans && !ClosesTwice(chans, pending, {})
  {
  }

  lemma CloseOneMore(chans: seq<Chan>, pending: map<uint32, nat>, done: set<uint32>, id: uint32)
    requires done <= pending.Keys && id in pending && id !in done
    requires forall i :: i in pending ==> pending[i] < |chans|
    ensures var now := Closed(chans, Targets(pending, done));
      var next := Closed(chans, Targets(pending, done + {id}));
      && (now[pending[id]].closed ==> next == now)
      && (!now[pending[id]].closed ==> next == now[pending[id] := now[pending[id]].(closed := true)])
      && (ClosesTwice(chans, pending, done + {id}) <==> ClosesTwice(chans, pending, done) || now[pending[id]].closed)
  {
    var now := Closed(chans, Targets(pending, done));
    assert Targets(pending, done + {id}) == Targets(pending, done) + {pending[id]};
    assert now[pending[id]].closed <==> chans[pending[id]].closed || pending[id] in Targets(pending, done);
  }

  // ---- safety ---------------------------------------------------------

  // Nothing has happened on the channel yet.
  predicate Untouched(ch: Chan) {
    !ch.closed && ch.buffer.None? && ch.sends == 0
  }

  predicate PendingOk(st: State) {
    forall id :: id in st.pending ==>
      var c := st.pending[id];
      c < |st.chans| && st.chans[c].id == id && Untouched(st.chans[c]) && !st.chans[c].waiter.Returned?
  }

  predicate TransitOk(st: State) {
    && (forall d :: d in st.transit ==>
          var c := st.transit[d].chan;
          c < |st.chans| && st.chans[c].id == st.transit[d].message.endToEnd && Untouched(st.chans[c]))
    && (forall d, id :: d in st.transit && id in st.pending ==> st.transit[d].chan != st.pending[id])
    && (forall d, d' :: d in st.transit && d' in st.transit && d != d' ==> st.transit[d].chan != st.transit[d'].chan)
  }

  predicate ChanOk(ch: Chan) {
    && ch.sends <= 1
    && (ch.closed ==> ch.sends == 0)
    && (ch.buffer.Some? ==> ch.sends == 1 && ch.buffer.value.endToEnd == ch.id)
    && (ch.waiter.Returned? && ch.waiter.outcome.Got? ==>
          ch.sends == 1 && ch.buffer.None? && ch.waiter.outcome.answer.endToEnd == ch.id)
  }

  /** No send on a closed channel, no double close and no discarded answer has
      happened; each call got at most one message, with its own id; and no
      pending entry belongs to a call that has returned. */
  predicate Safe(st: State) {
    && !st.panicked && st.discarded == 0
    && (forall c :: 0 <= c < |st.chans| ==> ChanOk(st.chans[c]))
    && PendingOk(st)
    && TransitOk(st)
  }

  lemma RegisterSafe(st: State, id: uint32)
    requires Safe(st)
    ensures Safe(Registered(st, id))
  {
  }

  lemma WaiterSafe(st: State, c: nat)
    requires Safe(st) && c < |st.chans| && !st.chans[c].waiter.Returned?
    ensures Safe(WithWaiter(st, c, Waiting))
  {
  }

  lemma GiveUpSafe(st: State, c: nat, o: Outcome)
    requires Safe(st) && c < |st.chans| && !st.chans[c].waiter.Returned? && !o.Got?
    ensures Safe(GivenUp(st, c, o))
  {
  }

  lemma LookupSafe(st: State, d: nat, message: Option<Message>)
    requires Safe(st) && d !in st.transit
    ensures Safe(LookedUp(st, d, message))
  {
  }

  lemma PutSafe(st: State, d: nat)
    requires Safe(st) && d in st.transit
    ensures Safe(Step(st, Put(d)))
  {
  }

  lemma ReceiveSafe(st: State, c: nat)
    requires Safe(st) && Enabled(st, Receive(c))
    ensures Safe(Received(st, c))
  {
  }

  lemma CloseSafe(st: State)
    requires Safe(st) && Enabled(st, CloseAll)
    ensures Safe(AllClosed(st))
  {
  }

  lemma StepSafe(st: State, a: Action)
    requires Safe(st) && Enabled(st, a)
    ensures Safe(Step(st, a))
  {
    hide Safe;
    assert Safe(st);
    match a
    case Register(id) => RegisterSafe(st, id);
    case WriteSucceeds(c) => WaiterSafe(st, c);
    case WriteFails(c) => GiveUpSafe(st, c, WriteFailed);
    case Lookup(d, message) => LookupSafe(st, d, message);
    case Put(d) => PutSafe(st, d);
    case Receive(c) => ReceiveSafe(st, c);
    case Cancel(c) => GiveUpSafe(st, c, Cancelled);
    case CloseAll => CloseSafe(st);
  }

  predicate Possible(st: State, run: seq<Action>)
    decreases |run|
  {
    run == [] || (Enabled(st, run[0]) && Possible(Step(st, run[0]), run[1..]))
  }

  function Run(st: State, run: seq<Action>): State
    requires Possible(st, run)
    decreases |run|
  {
    if run == [] then st else Run(Step(st, run[0]), run[1..])
  }

  /** Correlator safety, under every interleaving and even when end-to-end ids repeat. */
  lemma {:induction false} AlwaysSafe(st: State, run: seq<Action>)
    requires Safe(st) && Possible(st, run)
    ensures Safe(Run(st, run))
    decreases |run|
  {
    hide Safe, Step;
    if run != [] {
      StepSafe(st, run[0]);
      AlwaysSafe(Step(st, run[0]), run[1..]);
    }
  }

  // ---- no call is forgotten -------------------------------------------

  // Something can still resolve the call: its entry, an answer on the way, or its channel.
  predicate Held(st: State, c: nat)
    requires c < |st.chans|
  {
    || (st.chans[c].id in st.pending && st.pending[st.chans[c].id] == c)
    || (exists d :: d in st.transit && st.transit[d].chan == c)
    || st.chans[c].buffer.Some?
    || st.chans[c].closed
  }

  predicate NoneForgotten(st: State) {
    forall c :: 0 <= c < |st.chans| && !st.chans[c].waiter.Returned? ==> Held(st, c)
  }

  /** Registering forgets no call exactly when no call is pending under the id. */
  lemma RegisterForgets(st: State, id: uint32)
    requires Safe(st) && NoneForgotten(st)
    ensures NoneForgotten(Registered(st, id)) <==> id !in st.pending
  {
    var st' := Registered(st, id);
    forall c | 0 <= c < |st.chans| && !st.chans[c].waiter.Returned? && (id !in st.pending || st.pending[id] != c)
      ensures Held(st', c)
    {
      assert Held(st, c);
    }
    if id in st.pending {
      assert !Held(st', st.pending[id]);
    }
  }

  /** Giving up forgets no other call exactly when the id's entry, if any, is the call's own. */
  lemma GiveUpForgets(st: State, c: nat, o: Outcome)
    requires Safe(st) && NoneForgotten(st) && c < |st.chans| && !st.chans[c].waiter.Returned?
    ensures NoneForgotten(GivenUp(st, c, o)) <==> (st.chans[c].id in st.pending ==> st.pending[st.chans[c].id] == c)
  {
    var st', id := GivenUp(st, c, o), st.chans[c].id;
    forall b | 0 <= b < |st.chans| && b != c && !st.chans[b].waiter.Returned? && (id !in st.pending || st.pending[id] != b)
      ensures Held(st', b)
    {
      assert Held(st, b);
    }
    if id in st.pending && st.pending[id] != c {
      assert !Held(st', st.pending[id]);
    }
  }

  // No two calls in flight share an end-to-end id.
  predicate DistinctIds(st: State) {
    forall b, c :: 0 <= b < c < |st.chans| && !st.chans[b].waiter.Returned? && !st.chans[c].waiter.Returned? ==>
      st.chans[b].id != st.chans[c].id
  }

  predicate FreshId(st: State, a: Action) {
    a.Register? ==> forall c :: 0 <= c < |st.chans| && !st.chans[c].waiter.Returned? ==> st.chans[c].id != a.id
  }

  predicate FreshIds(st: State, run: seq<Action>)
    requires Possible(st, run)
    decreases |run|
  {
    run == [] || (FreshId(st, run[0]) && FreshIds(Step(st, run[0]), run[1..]))
  }

  lemma StepDistinct(st: State, a: Action)
    requires Enabled(st, a) && DistinctIds(st) && FreshId(st, a)
    ensures DistinctIds(Step(st, a))
  {
  }

  lemma LookupForgetsNone(st: State, d: nat, message: Option<Message>)
    requires Safe(st) && NoneForgotten(st) && d !in st.transit
    ensures NoneForgotten(LookedUp(st, d, message))
  {
    var st' := LookedUp(st, d, message);
    forall c | 0 <= c < |st.chans| && !st.chans[c].waiter.Returned?
      ensures Held(st', c)
    {
      assert Held(st, c);
      if message.Some? && message.value.endToEnd in st.pending {
        if st.pending[message.value.endToEnd] == c {
          assert st'.transit[d].chan == c;
        } else if e :| e in st.transit && st.transit[e].chan == c {
          assert st'.transit[e].chan == c;
        }
      }
    }
  }

  lemma PutForgetsNone(st: State, d: nat)
    requires Safe(st) && NoneForgotten(st) && d in st.transit
    ensures NoneForgotten(Step(st, Put(d)))
  {
    var st' := Step(st, Put(d));
    forall c | 0 <= c < |st.chans| && !st.chans[c].waiter.Returned?
      ensures Held(st', c)
    {
      assert Held(st, c);
      if c != st.transit[d].chan {
        if e :| e in st.transit && st.transit[e].chan == c {
          assert st'.transit[e].chan == c;
        }
      }
    }
  }

  lemma CloseForgetsNone(st: State)
    requires Safe(st) && NoneForgotten(st) && Enabled(st, CloseAll)
    ensures NoneForgotten(AllClosed(st))
  {
    var st' := AllClosed(st);
    forall c | 0 <= c < |st.chans| && !st.chans[c].waiter.Returned?
      ensures Held(st', c)
    {
      assert Held(st, c);
    }
  }

  lemma ChannelForgetsNone(st: State, a: Action)
    requires Safe(st) && NoneForgotten(st) && Enabled(st, a) && (a.WriteSucceeds? || a.Receive?)
    ensures NoneForgotten(Step(st, a))
  {
    var st' := Step(st, a);
    forall c | 0 <= c < |st.chans| && !st'.chans[c].waiter.Returned?
      ensures Held(st', c)
    {
      assert Held(st, c);
    }
  }

  lemma StepForgetsNone(st: State, a: Action)
    requires Safe(st) && NoneForgotten(st) && DistinctIds(st) && Enabled(st, a) && FreshId(st, a)
    ensures NoneForgotten(Step(st, a))
  {
    hide NoneForgotten;
    match a
    case Register(id) => RegisterForgets(st, id);
    case WriteFails(c) => GiveUpForgets(st, c, WriteFailed);
    case Cancel(c) => GiveUpForgets(st, c, Cancelled);
    case Lookup(d, message) => LookupForgetsNone(st, d, message);
    case Put(d) => PutForgetsNone(st, d);
    case CloseAll => CloseForgetsNone(st);
    case _ => ChannelForgetsNone(st, a);
  }

  /** With unique end-to-end ids in flight no call is ever forgotten. */
  lemma {:induction false} NeverForgotten(st: State, run: seq<Action>)
    requires Safe(st) && NoneForgotten(st) && DistinctIds(st) && Possible(st, run) && FreshIds(st, run)
    ensures NoneForgotten(Run(st, run)) && DistinctIds(Run(st, run))
    decreases |run|
  {
    hide Safe, NoneForgotten, DistinctIds, FreshId, Step;
    if run != [] {
      StepSafe(st, run[0]);
      StepDistinct(st, run[0]);
      StepForgetsNone(st, run[0]);
      NeverForgotten(Step(st, run[0]), run[1..]);
    }
  }

  /** After a drop every call in flight can return or has its answer on the way. */
  lemma DropReleases(st: State, c: nat)
    requires Safe(st) && NoneForgotten(st) && Enabled(st, CloseAll)
    requires c < |st.chans| && !st.chans[c].waiter.Returned?
    ensures var st' := AllClosed(st);
      st'.chans[c].closed || st'.chans[c].buffer.Some? || exists d :: d in st'.transit && st'.transit[d].chan == c
  {
    assert Held(st, c);
  }

  /** Both together, from an empty correlator. */
  lemma EveryRun(run: seq<Action>)
    requires Possible(START, run)
    ensures Safe(Run(START, run))
    ensures FreshIds(START, run) ==> NoneForgotten(Run(START, run))
  {
    AlwaysSafe(START, run);
    if FreshIds(START, run) {
      NeverForgotten(START, run);
    }
  }
}
