/** Connection states, their transition events, and the fan-out of events to
    subscribers with small buffers that drop the oldest event on overflow.
    Readers may take events at any point between the channel operations of an
    emit. */
module Subscribers {
  import opened Text

  datatype ConnectionState = Stopped | Connecting | Connected | Disconnected

  datatype StateEvent = StateEvent(source: ConnectionState, target: ConnectionState, detail: string)

  const BUFFER_SIZE: nat := 16

  /** One subscriber's channel with its history. Positions count the events
      emitted by the connection. */
  datatype Channel = Channel(
    buffer: seq<StateEvent>,
    closed: bool,
    since: nat,                   // events emitted before the subscription
    offered: nat,                 // events emitted when the last one was offered
    taken: seq<nat>,              // positions of the events the reader took
    dropped: nat)

  // ---- subsequences ---------------------------------------------------

  /** Whether xs can be had from ys by leaving events out. */
  predicate Subsequence<T(==)>(xs: seq<T>, ys: seq<T>) {
    if xs == [] then true
    else if ys == [] then false
    else if xs[|xs| - 1] == ys[|ys| - 1] then Subsequence(xs[..|xs| - 1], ys[..|ys| - 1])
    else Subsequence(xs, ys[..|ys| - 1])
  }

  predicate Rising(at: seq<nat>, low: nat, high: nat) {
    && (forall i :: 0 <= i < |at| ==> low <= at[i] < high)
    && (forall i, j :: 0 <= i < j < |at| ==> at[i] < at[j])
  }

  function Picked<T>(ys: seq<T>, at: seq<nat>): (xs: seq<T>)
    requires forall i :: 0 <= i < |at| ==> at[i] < |ys|
    ensures |xs| == |at|
  {
    seq(|at|, i requires 0 <= i < |at| => ys[at[i]])
  }

  lemma PickedFront<T>(ys: seq<T>, at: seq<nat>, n: nat)
    requires n <= |ys| && Rising(at, 0, n)
    ensures Picked(ys[..n], at) == Picked(ys, at)
  {
  }

  lemma PickedButLast<T>(ys: seq<T>, at: seq<nat>)
    requires at != [] && Rising(at, 0, |ys|)
    ensures var m := |at| - 1;
      && at[m] < |ys| && Rising(at[..m], 0, |ys| - 1)
      && Picked(ys, at)[..m] == Picked(ys, at[..m])
  {
    var m := |at| - 1;
    assert forall i :: 0 <= i < m ==> at[..m][i] == at[i] < at[m];
  }

  lemma RisingBelow(at: seq<nat>, n: nat)
    requires at != [] && Rising(at, 0, n + 1) && at[|at| - 1] != n
    ensures Rising(at, 0, n)
  {
    var m := |at| - 1;
    assert forall i :: 0 <= i <= m ==> at[i] <= at[m];
  }

  lemma {:induction false} RisingPicksSubsequence<T>(ys: seq<T>, at: seq<nat>)
    requires Rising(at, 0, |ys|)
    ensures Subsequence(Picked(ys, at), ys)
    decreases |ys|
  {
    hide Rising;
    if at != [] {
      PickedButLast(ys, at);
      var m, n, xs := |at| - 1, |ys| - 1, Picked(ys, at);
      assert xs[m] == ys[at[m]];
      if xs[m] == ys[n] {
        PickedFront(ys, at[..m], n);
        RisingPicksSubsequence(ys[..n], at[..m]);
      } else {
        RisingBelow(at, n);
        PickedFront(ys, at, n);
        RisingPicksSubsequence(ys[..n], at);
      }
    }
  }

  // ---- what a channel holds -------------------------------------------

  /** The buffer is the newest stretch of what was offered, the reader took
      earlier events in order, and every event was taken, kept or dropped. */
  ghost predicate Delivered(ch: Channel, emitted: seq<StateEvent>) {
    && ch.since <= ch.offered <= |emitted|
    && |ch.buffer| <= BUFFER_SIZE
    && |ch.buffer| <= ch.offered - ch.since
    && ch.buffer == emitted[ch.offered - |ch.buffer|..ch.offered]
    && Rising(ch.taken, ch.since, ch.offered - |ch.buffer|)
    && |ch.taken| + ch.dropped + |ch.buffer| == ch.offered - ch.since
  }

  /** The newest event is still buffered or was taken. */
  predicate NewestKept(ch: Channel) {
    ch.offered > ch.since && ch.buffer == [] ==> ch.taken != [] && ch.taken[|ch.taken| - 1] == ch.offered - 1
  }

  function Positions(from: nat, k: nat): (r: seq<nat>)
    ensures |r| == k
  {
    seq(k, i requires 0 <= i < k => from + i)
  }

  // The channel after its reader took k more events.
  function TakenBy(ch: Channel, k: nat): Channel
    requires k <= |ch.buffer| <= ch.offered
  {
    ch.(buffer := ch.buffer[k..], taken := ch.taken + Positions(ch.offered - |ch.buffer|, k))
  }

  predicate ReadOn(before: Channel, after: Channel) {
    |after.buffer| <= |before.buffer| <= before.offered && after == TakenBy(before, |before.buffer| - |after.buffer|)
  }

  lemma ReadOnStep(a: Channel, b: Channel)
    requires ReadOn(a, b) && b.buffer != []
    ensures ReadOn(a, TakenBy(b, 1))
  {
    var c, k := TakenBy(b, 1), |a.buffer| - |b.buffer|;
    assert c.buffer == a.buffer[k + 1..];
    assert c.taken == a.taken + Positions(a.offered - |a.buffer|, k + 1);
  }

  lemma TakeDelivered(ch: Channel, emitted: seq<StateEvent>)
    requires Delivered(ch, emitted) && ch.buffer != []
    ensures Delivered(TakenBy(ch, 1), emitted)
  {
    assert TakenBy(ch, 1).taken == ch.taken + [ch.offered - |ch.buffer|];
  }

  function Pushed(ch: Channel, ev: StateEvent): Channel {
    ch.(buffer := ch.buffer + [ev], offered := ch.offered + 1)
  }

  lemma PushDelivered(ch: Channel, emitted: seq<StateEvent>)
    requires Delivered(ch, emitted) && ch.offered < |emitted| && |ch.buffer| < BUFFER_SIZE
    ensures Delivered(Pushed(ch, emitted[ch.offered]), emitted)
  {
    var n := ch.offered - |ch.buffer|;
    assert emitted[n..ch.offered + 1] == emitted[n..ch.offered] + [emitted[ch.offered]];
  }

  lemma PushRoom(ch: Channel, emitted: seq<StateEvent>)
    requires Delivered(ch, emitted) && ch.offered < |emitted|
    ensures |ch.buffer| < BUFFER_SIZE ==> Delivered(Pushed(ch, emitted[ch.offered]), emitted)
  {
    if |ch.buffer| < BUFFER_SIZE {
      PushDelivered(ch, emitted);
    }
  }

  function OldestDropped(ch: Channel): Channel
    requires ch.buffer != []
  {
    ch.(buffer := ch.buffer[1..], dropped := ch.dropped + 1)
  }

  lemma DropDelivered(ch: Channel, emitted: seq<StateEvent>)
    requires Delivered(ch, emitted) && ch.buffer != []
    ensures Delivered(OldestDropped(ch), emitted)
  {
  }

  lemma ReadOnTransitive(a: Channel, b: Channel, c: Channel)
    requires ReadOn(a, b) && ReadOn(b, c)
    ensures ReadOn(a, c)
  {
    var j, k := |a.buffer| - |b.buffer|, |b.buffer| - |c.buffer|;
    assert c.buffer == a.buffer[j + k..];
    assert c.taken == a.taken + Positions(a.offered - |a.buffer|, j + k);
  }

  ghost predicate AllRead(before: seq<Channel>, after: seq<Channel>) {
    |before| == |after| && forall b :: 0 <= b < |after| ==> ReadOn(before[b], after[b])
  }

  // All channels but one were only read.
  ghost predicate OthersRead(before: seq<Channel>, after: seq<Channel>, c: nat) {
    |before| == |after| && forall b :: 0 <= b < |after| && b != c ==> ReadOn(before[b], after[b])
  }

  lemma OthersReadTransitive(x: seq<Channel>, y: seq<Channel>, z: seq<Channel>, c: nat)
    requires OthersRead(x, y, c) && OthersRead(y, z, c)
    ensures OthersRead(x, z, c)
  {
    hide ReadOn;
    forall b | 0 <= b < |z| && b != c
      ensures ReadOn(x[b], z[b])
    {
      ReadOnTransitive(x[b], y[b], z[b]);
    }
  }

  lemma AllReadAt(before: seq<Channel>, after: seq<Channel>, c: nat)
    requires AllRead(before, after) && c < |after|
    ensures OthersRead(before, after, c)
    ensures after[c].offered == before[c].offered && after[c].dropped == before[c].dropped
    ensures after[c].closed == before[c].closed && |after[c].buffer| <= |before[c].buffer|
  {
  }

  lemma UpdateOthersRead(before: seq<Channel>, after: seq<Channel>, c: nat, ch: Channel)
    requires OthersRead(before, after, c) && c < |after|
    ensures OthersRead(before, after[c := ch], c)
  {
  }

  lemma OthersReadKeeps(before: seq<Channel>, after: seq<Channel>, c: nat)
    requires OthersRead(before, after, c)
    ensures |before| == |after|
    ensures forall b :: 0 <= b < |after| && b != c ==>
      && after[b].offered == before[b].offered && after[b].dropped == before[b].dropped
      && (NewestKept(before[b]) ==> NewestKept(after[b]))
  {
  }

  // How far an emit got with a subscriber.
  predicate Progressed(before: Channel, after: Channel, waiting: bool) {
    if waiting then after.offered == before.offered && after.dropped == before.dropped
    else after.offered == before.offered + 1 && after.dropped <= before.dropped + 1
  }

  lemma DeliveredLater(ch: Channel, emitted: seq<StateEvent>, ev: StateEvent)
    requires Delivered(ch, emitted)
    ensures Delivered(ch, emitted + [ev])
  {
    var n := ch.offered - |ch.buffer|;
    assert (emitted + [ev])[n..ch.offered] == emitted[n..ch.offered];
  }

  lemma BufferBound(ch: Channel, emitted: seq<StateEvent>)
    requires Delivered(ch, emitted)
    ensures |ch.buffer| <= BUFFER_SIZE
  {
  }

  function ShiftedDown(at: seq<nat>, low: nat): (r: seq<nat>)
    requires forall i :: 0 <= i < |at| ==> low <= at[i]
    ensures |r| == |at|
  {
    seq(|at|, i requires 0 <= i < |at| => at[i] - low)
  }

  lemma RisingOn(at: seq<nat>, low: nat, n: nat, k: nat)
    requires Rising(at, low, n) && low <= n
    ensures Rising(at + Positions(n, k), low, n + k)
  {
  }

  lemma PickedConcat<T>(ys: seq<T>, at: seq<nat>, n: nat, k: nat)
    requires (forall i :: 0 <= i < |at| ==> at[i] < |ys|) && n + k <= |ys|
    ensures forall i :: 0 <= i < |at + Positions(n, k)| ==> (at + Positions(n, k))[i] < |ys|
    ensures Picked(ys, at + Positions(n, k)) == Picked(ys, at) + ys[n..n + k]
  {
  }

  lemma PickedShifted<T>(ys: seq<T>, at: seq<nat>, low: nat, high: nat)
    requires low <= high <= |ys| && Rising(at, low, high)
    ensures Rising(ShiftedDown(at, low), 0, high - low)
    ensures Picked(ys[low..high], ShiftedDown(at, low)) == Picked(ys, at)
  {
  }

  /** Consumed and buffered events together are an in-order selection of what
      was emitted since the subscription. */
  lemma InOrder(ch: Channel, emitted: seq<StateEvent>)
    requires Delivered(ch, emitted)
    ensures Subsequence(Picked(emitted, ch.taken) + ch.buffer, emitted[ch.since..ch.offered])
  {
    hide Picked, Positions, ShiftedDown, Subsequence;
    var n, k := ch.offered - |ch.buffer|, |ch.buffer|;
    var all := ch.taken + Positions(n, k);
    RisingOn(ch.taken, ch.since, n, k);
    PickedConcat(emitted, ch.taken, n, k);
    PickedShifted(emitted, all, ch.since, ch.offered);
    RisingPicksSubsequence(emitted[ch.since..ch.offered], ShiftedDown(all, ch.since));
  }

  // ---- the set --------------------------------------------------------

  class SubscriberSet {
    var chans: seq<Channel>       // every channel ever made
    var live: set<nat>            // those registered
    var emitted: seq<StateEvent>
    var discarded: nat            // new events given up on overflow
    var panicked: bool            // a closed channel was closed again or sent on

    ghost predicate Sound()
      reads this
    {
      && !panicked && discarded == 0
      && (forall c :: c in live ==> c < |chans|)
      && (forall c :: 0 <= c < |chans| ==> Delivered(chans[c], emitted) && (chans[c].closed <==> c !in live))
    }

    /** No event was given up, no closed channel was touched, every channel
        holds what it should, and the live ones are up to date. */
    ghost predicate Valid()
      reads this
    {
      && Sound()
      && (forall c :: 0 <= c < |chans| ==> NewestKept(chans[c]))
      && (forall c :: c in live ==> chans[c].offered == |emitted|)
    }

    constructor ()
      ensures Valid() && chans == [] && live == {} && emitted == []
    {
      chans, live, emitted, discarded, panicked := [], {}, [], 0, false;
    }

    method Add() returns (c: nat)
      requires Valid()
      modifies this
      ensures Valid() && emitted == old(emitted)
      ensures c == |old(chans)| && live == old(live) + {c}
      ensures chans == old(chans) + [Channel([], false, |emitted|, |emitted|, [], 0)]
    {
      c := |chans|;
      chans := chans + [Channel([], false, |emitted|, |emitted|, [], 0)];
      live := live + {c};
    }

    method Close(c: nat)
      requires c < |chans|
      modifies this`chans, this`panicked
      ensures panicked == (old(panicked) || old(chans)[c].closed)
      ensures chans == old(chans)[c := old(chans)[c].(closed := true)]
    {
      if chans[c].closed {
        panicked := true;
      } else {
        chans := chans[c := chans[c].(closed := true)];
      }
    }

    /** Closes and unregisters a channel; a second removal does nothing. */
    method Remove(c: nat)
      requires Valid()
      modifies this
      ensures Valid() && emitted == old(emitted) && live == old(live) - {c}
      ensures chans == if c in old(live) then old(chans)[c := old(chans)[c].(closed := true)] else old(chans)
    {
      if c in live {
        live := live - {c};
        Close(c);
      }
    }

    method CloseAll()
      requires Valid()
      modifies this
      ensures Valid() && emitted == old(emitted) && live == {}
      ensures |chans| == |old(chans)| && forall c :: 0 <= c < |chans| ==> chans[c] == old(chans)[c].(closed := true)
    {
      var left := live;
      while left != {}
        invariant left <= old(live) == live && emitted == old(emitted) && |chans| == |old(chans)|
        invariant !panicked && discarded == 0
        invariant forall c :: 0 <= c < |chans| ==>
          chans[c] == if c in left then old(chans)[c] else old(chans)[c].(closed := true)
        decreases left
      {
        var c :| c in left;
        left := left - {c};
        Close(c);
      }
      live := {};
    }

    /** A reader takes the oldest buffered event of its channel, if any. */
    method Take(c: nat) returns (ev: Option<StateEvent>)
      requires c < |chans| && |chans[c].buffer| <= chans[c].offered
      modifies this`chans
      ensures old(chans)[c].buffer == [] ==> chans == old(chans) && ev == None
      ensures old(chans)[c].buffer != [] ==>
        chans == old(chans)[c := TakenBy(old(chans)[c], 1)] && ev == Some(old(chans)[c].buffer[0])
    {
      ev := None;
      var ch := chans[c];
      if ch.buffer != [] {
        ev := Some(ch.buffer[0]);
        chans := chans[c := TakenBy(ch, 1)];
      }
    }

    /** Whatever the readers do in between: any number of takes on any channels. */
    method Readers()
      requires Sound()
      modifies this`chans
      ensures Sound() && AllRead(old(chans), chans)
    {
      var n: nat := *;
      while n > 0
        invariant Sound() && AllRead(old(chans), chans)
      {
        n := n - 1;
        var c: nat := *;
        if 0 <= c < |chans| {
          if chans[c].buffer != [] {
            TakeDelivered(chans[c], emitted);
            ReadOnStep(old(chans)[c], chans[c]);
          }
          var _ := Take(c);
        }
      }
    }

    // A non-blocking send; on a closed channel it panics.
    method TrySend(c: nat, ev: StateEvent) returns (sent: bool)
      requires c < |chans|
      modifies this`chans, this`panicked
      ensures sent <==> !old(chans)[c].closed && |old(chans)[c].buffer| < BUFFER_SIZE
      ensures panicked == (old(panicked) || old(chans)[c].closed)
      ensures chans == if sent then old(chans)[c := Pushed(old(chans)[c], ev)] else old(chans)
    {
      sent := false;
      if chans[c].closed {
        panicked := true;
      } else if |chans[c].buffer| < BUFFER_SIZE {
        chans := chans[c := Pushed(chans[c], ev)];
        sent := true;
      }
    }

    // Drop the oldest event and send again.
    method DropAndRetry(c: nat, ev: StateEvent)
      requires Sound() && c in live && chans[c].offered < |emitted| && ev == emitted[chans[c].offered]
      modifies this`chans, this`discarded, this`panicked
      ensures Sound() && OthersRead(old(chans), chans, c)
      ensures chans[c].offered == old(chans)[c].offered + 1 && NewestKept(chans[c])
      ensures chans[c].dropped <= old(chans)[c].dropped + 1
    {
      hide Delivered, AllRead, OthersRead;
      BufferBound(chans[c], emitted);
      Readers();
      AllReadAt(old(chans), chans, c);
      if chans[c].buffer != [] {
        DropDelivered(chans[c], emitted);
        UpdateOthersRead(old(chans), chans, c, OldestDropped(chans[c]));
        chans := chans[c := OldestDropped(chans[c])];
      }
      ghost var before := chans;
      Readers();
      AllReadAt(before, chans, c);
      OthersReadTransitive(old(chans), before, chans, c);
      PushDelivered(chans[c], emitted);
      UpdateOthersRead(old(chans), chans, c, Pushed(chans[c], ev));
      var sent := TrySend(c, ev);
      discarded := discarded + if sent then 0 else 1;
    }

    // One subscriber's turn.
    method Offer(c: nat, ev: StateEvent)
      requires Sound() && c in live && chans[c].offered < |emitted| && ev == emitted[chans[c].offered]
      modifies this`chans, this`discarded, this`panicked
      ensures Sound() && OthersRead(old(chans), chans, c)
      ensures chans[c].offered == old(chans)[c].offered + 1 && NewestKept(chans[c])
      ensures chans[c].dropped <= old(chans)[c].dropped + 1
      ensures |old(chans)[c].buffer| < BUFFER_SIZE ==> chans[c].dropped == old(chans)[c].dropped
    {
      hide Delivered, AllRead, OthersRead;
      Readers();
      AllReadAt(old(chans), chans, c);
      PushRoom(chans[c], emitted);
      UpdateOthersRead(old(chans), chans, c, Pushed(chans[c], ev));
      ghost var before := chans;
      var sent := TrySend(c, ev);
      if !sent {
        DropAndRetry(c, ev);
        OthersReadTransitive(old(chans), before, chans, c);
      }
    }

    /** Fans one event out to every live subscriber, with readers running between
        any two channel operations. */
    method Emit(ev: StateEvent)
      requires Valid()
      modifies this
      ensures Valid() && emitted == old(emitted) + [ev] && live == old(live) && |chans| == |old(chans)|
      ensures forall c :: c in live ==> chans[c].dropped <= old(chans)[c].dropped + 1
    {
      hide Delivered, NewestKept, OthersRead;
      forall c | 0 <= c < |chans|
        ensures Delivered(chans[c], emitted + [ev])
      {
        DeliveredLater(chans[c], emitted, ev);
      }
      emitted := emitted + [ev];
      var left := live;
      while left != {}
        invariant left <= live == old(live) && emitted == old(emitted) + [ev] && |chans| == |old(chans)|
        invariant Sound() && (forall c :: 0 <= c < |chans| ==> NewestKept(chans[c]))
        invariant forall c :: c in live ==> Progressed(old(chans)[c], chans[c], c in left)
        decreases left
      {
        var c :| c in left;
        left := left - {c};
        ghost var before := chans;
        Offer(c, ev);
        OthersReadKeeps(before, chans, c);
      }
    }
  }
}
