/** What becomes of the updates a session receives. Arrivals, the outbox writer,
    snapshot reloads and the flush of the loss counter interleave at will; no update
    some subscription admits disappears without a row or a count. */
module Losses {
  import opened Common
  import opened Fanout

  datatype Fate =
    | Queued
    | Written(ids: seq<string>)   // handed to the registry, for these subscriptions
    | Nobody                      // for no subscription
    | Lost

  // An update received, with the filters as last loaded when it arrived.
  datatype Arrival = Arrival(u: Update, filters: seq<Filter>, fate: Fate)
  datatype Item = Item(n: nat, u: Update, snap: Snapshot)

  datatype State = State(
    filters: seq<Filter>,
    snap: Snap,
    queue: seq<Item>,
    dropped: nat,            // the session's in-memory counter
    transit: Option<nat>,    // swapped out, on its way to the registry
    recorded: nat,           // the counter the registry shows
    arrivals: seq<Arrival>)

  datatype Step =
    | Receive(u: Update, room: bool)   // room: whether the shared queue takes one more
    | Write(stored: bool)
    | Sync(filters: seq<Filter>, snap: Snap)
    | Swap
    | Flush(stored: bool)

  ghost predicate Enabled(st: State, step: Step) {
    match step
    case Receive(_, _) => true
    case Write(_) => st.queue != []
    case Sync(filters, snap) => Speaks(snap, filters)
    case Swap => st.transit.None?
    case Flush(_) => st.transit.Some?
  }

  function Received(st: State, u: Update, room: bool): State {
    var n := |st.arrivals|;
    if !Wants(st.snap, u.ctor) then
      st.(arrivals := st.arrivals + [Arrival(u, st.filters, Nobody)])
    else if room then
      st.(arrivals := st.arrivals + [Arrival(u, st.filters, Queued)],
          queue := st.queue + [Item(n, u, st.snap.value)])
    else
      st.(arrivals := st.arrivals + [Arrival(u, st.filters, Lost)], dropped := st.dropped + 1)
  }

  function FateOf(item: Item, stored: bool): Fate {
    var ids := Takers(item.snap.subs, item.u);
    if ids == [] then Nobody else if stored then Written(ids) else Lost
  }

  function WrittenOut(st: State, stored: bool): State
    requires st.queue != []
  {
    var item := st.queue[0];
    var fate := FateOf(item, stored);
    st.(queue := st.queue[1..],
        dropped := st.dropped + if fate.Lost? then 1 else 0,
        arrivals := if item.n < |st.arrivals| then st.arrivals[item.n := st.arrivals[item.n].(fate := fate)]
                    else st.arrivals)
  }

  ghost function After(st: State, step: Step): State
    requires Enabled(st, step)
  {
    match step
    case Receive(u, room) => Received(st, u, room)
    case Write(stored) => WrittenOut(st, stored)
    case Sync(filters, snap) => st.(filters := filters, snap := snap)
    case Swap => if st.dropped == 0 then st else st.(transit := Some(st.dropped), dropped := 0)
    case Flush(stored) =>
      if stored then st.(recorded := st.recorded + st.transit.value, transit := None)
      else st.(dropped := st.dropped + st.transit.value, transit := None)
  }

  ghost predicate IsRun(st: State, steps: seq<Step>)
    decreases |steps|
  {
    steps == [] || (Enabled(st, steps[0]) && IsRun(After(st, steps[0]), steps[1..]))
  }

  ghost function Final(st: State, steps: seq<Step>): State
    requires IsRun(st, steps)
    decreases |steps|
  {
    if steps == [] then st else Final(After(st, steps[0]), steps[1..])
  }

  // A session just put live: nothing loaded, nothing received.
  const INITIAL := State([], None, [], 0, None, 0, [])

  // ---------------------------------------------------------------- invariant

  function CountLost(arrivals: seq<Arrival>): nat {
    if arrivals == [] then 0
    else CountLost(arrivals[..|arrivals| - 1]) + if arrivals[|arrivals| - 1].fate.Lost? then 1 else 0
  }

  function InTransit(st: State): nat {
    if st.transit.Some? then st.transit.value else 0
  }

  // What an arrival's fate says about who it was for.
  ghost predicate Fair(a: Arrival) {
    match a.fate
    case Written(ids) => ids == Admitted(a.filters, a.u) && ids != []
    case Nobody => Admitted(a.filters, a.u) == []
    case _ => true
  }

  ghost predicate AllFair(arrivals: seq<Arrival>) {
    forall n :: 0 <= n < |arrivals| ==> Fair(arrivals[n])
  }

  ghost predicate ItemOk(item: Item, arrivals: seq<Arrival>) {
    && item.n < |arrivals|
    && arrivals[item.n].fate == Queued
    && arrivals[item.n].u == item.u
    && Speaks(Some(item.snap), arrivals[item.n].filters)
  }

  ghost predicate QueueOk(queue: seq<Item>, arrivals: seq<Arrival>) {
    && (forall i :: 0 <= i < |queue| ==> ItemOk(queue[i], arrivals))
    && (forall i, j :: 0 <= i < j < |queue| ==> queue[i].n < queue[j].n)
    && (forall n :: 0 <= n < |arrivals| && arrivals[n].fate == Queued ==> InQueue(queue, n))
  }

  predicate InQueue(queue: seq<Item>, n: nat) {
    exists i :: 0 <= i < |queue| && queue[i].n == n
  }

  ghost predicate Inv(st: State) {
    && Speaks(st.snap, st.filters)
    && QueueOk(st.queue, st.arrivals)
    && AllFair(st.arrivals)
    && CountLost(st.arrivals) == st.recorded + InTransit(st) + st.dropped
  }

  lemma {:induction false} RefateCount(arrivals: seq<Arrival>, n: nat, fate: Fate)
    requires n < |arrivals| && !arrivals[n].fate.Lost?
    ensures CountLost(arrivals[n := arrivals[n].(fate := fate)])
            == CountLost(arrivals) + if fate.Lost? then 1 else 0
  {
    var m := |arrivals| - 1;
    var changed := arrivals[n := arrivals[n].(fate := fate)];
    if n < m {
      RefateCount(arrivals[..m], n, fate);
      assert changed[..m] == arrivals[..m][n := arrivals[n].(fate := fate)];
    } else {
      assert changed[..m] == arrivals[..m];
    }
  }

  lemma AppendQueued(queue: seq<Item>, arrivals: seq<Arrival>, a: Arrival, item: Item)
    requires QueueOk(queue, arrivals)
    requires item.n == |arrivals| && ItemOk(item, arrivals + [a])
    ensures QueueOk(queue + [item], arrivals + [a])
  {
    hide Speaks;
    forall i | 0 <= i < |queue|
      ensures ItemOk(queue[i], arrivals + [a])
    {
      assert ItemOk(queue[i], arrivals);
    }
    forall n | 0 <= n < |arrivals + [a]| && (arrivals + [a])[n].fate == Queued
      ensures InQueue(queue + [item], n)
    {
      if n < |arrivals| {
        assert InQueue(queue, n);
        var i :| 0 <= i < |queue| && queue[i].n == n;
        assert (queue + [item])[i].n == n;
      } else {
        assert (queue + [item])[|queue|].n == n;
      }
    }
  }

  lemma AppendOther(queue: seq<Item>, arrivals: seq<Arrival>, a: Arrival)
    requires QueueOk(queue, arrivals) && a.fate != Queued
    ensures QueueOk(queue, arrivals + [a])
  {
    hide Speaks, InQueue;
    forall i | 0 <= i < |queue|
      ensures ItemOk(queue[i], arrivals + [a])
    {
      assert ItemOk(queue[i], arrivals);
    }
  }

  lemma TakeHead(queue: seq<Item>, arrivals: seq<Arrival>, a: Arrival)
    requires QueueOk(queue, arrivals) && queue != [] && a.fate != Queued
    ensures queue[0].n < |arrivals| && QueueOk(queue[1..], arrivals[queue[0].n := a])
  {
    hide Speaks;
    assert ItemOk(queue[0], arrivals);
    var arrivals' := arrivals[queue[0].n := a];
    forall i | 0 <= i < |queue[1..]|
      ensures ItemOk(queue[1..][i], arrivals')
    {
      assert ItemOk(queue[i + 1], arrivals);
    }
    forall n | 0 <= n < |arrivals'| && arrivals'[n].fate == Queued
      ensures InQueue(queue[1..], n)
    {
      assert InQueue(queue, n);
      var i :| 0 <= i < |queue| && queue[i].n == n;
      assert queue[1..][i - 1].n == n;
    }
  }

  lemma NewArrival(arrivals: seq<Arrival>, a: Arrival)
    requires AllFair(arrivals) && Fair(a)
    ensures AllFair(arrivals + [a])
    ensures CountLost(arrivals + [a]) == CountLost(arrivals) + if a.fate.Lost? then 1 else 0
  {
    hide Fair;
    assert (arrivals + [a])[..|arrivals|] == arrivals;
  }

  lemma InvReceive(st: State, u: Update, room: bool)
    requires Inv(st)
    ensures Inv(Received(st, u, room))
  {
    SnapshotIsFaithful(st.snap, st.filters, u);
    var wanted := Wants(st.snap, u.ctor);
    var a := Arrival(u, st.filters, if !wanted then Nobody else if room then Queued else Lost);
    assert Fair(a);
    hide QueueOk, Speaks, Admitted, SomeTakes, AllFair, Fair, CountLost;
    NewArrival(st.arrivals, a);
    if wanted && room {
      assert st.snap == Some(st.snap.value);
      AppendQueued(st.queue, st.arrivals, a, Item(|st.arrivals|, u, st.snap.value));
    } else {
      AppendOther(st.queue, st.arrivals, a);
    }
  }

  lemma InvWrite(st: State, stored: bool)
    requires Inv(st) && st.queue != []
    ensures Inv(WrittenOut(st, stored))
  {
    var item := st.queue[0];
    var was, fate := HeadIsFair(st, stored);
    hide QueueOk, Speaks, Admitted, Takers, CountLost, Fair, ItemOk, FateOf;
    RefateCount(st.arrivals, item.n, fate);
    TakeHead(st.queue, st.arrivals, was.(fate := fate));
    StillFair(st.arrivals, item.n, was.(fate := fate));
  }

  lemma HeadIsFair(st: State, stored: bool) returns (was: Arrival, fate: Fate)
    requires Inv(st) && st.queue != []
    ensures st.queue[0].n < |st.arrivals| && was == st.arrivals[st.queue[0].n] && was.fate == Queued
    ensures fate == FateOf(st.queue[0], stored) && fate != Queued && Fair(was.(fate := fate))
  {
    var item := st.queue[0];
    assert ItemOk(item, st.arrivals);
    was, fate := st.arrivals[item.n], FateOf(item, stored);
    SnapshotIsFaithful(Some(item.snap), was.filters, was.u);
  }

  lemma StillFair(arrivals: seq<Arrival>, n: nat, a: Arrival)
    requires AllFair(arrivals) && n < |arrivals| && Fair(a)
    ensures AllFair(arrivals[n := a])
  {
    hide Fair;
  }

  lemma {:induction false} InvRun(st: State, steps: seq<Step>)
    requires Inv(st) && IsRun(st, steps)
    ensures Inv(Final(st, steps))
    decreases |steps|
  {
    if steps != [] {
      match steps[0] {
        case Receive(u, room) => InvReceive(st, u, room);
        case Write(stored) => InvWrite(st, stored);
        case _ =>
      }
      hide Speaks, QueueOk, Fair, CountLost;
      InvRun(After(st, steps[0]), steps[1..]);
    }
  }

  lemma InitialInv()
    ensures Inv(INITIAL)
  {
  }

  // However the parts interleave and whichever writes fail: an update that some
  // loaded subscription admits waits in the queue, or was written for exactly the
  // subscriptions that admit it, or was counted; and the losses on record, on their
  // way and still in memory are the losses there were.
  lemma NothingVanishes(steps: seq<Step>)
    requires IsRun(INITIAL, steps)
    ensures var st := Final(INITIAL, steps);
            && CountLost(st.arrivals) == st.recorded + InTransit(st) + st.dropped
            && (forall n :: 0 <= n < |st.arrivals| ==>
                  var a := st.arrivals[n];
                  Admitted(a.filters, a.u) != [] ==>
                    a.fate == Lost || a.fate == Written(Admitted(a.filters, a.u))
                    || InQueue(st.queue, n))
            && (forall n :: 0 <= n < |st.arrivals| && Admitted(st.arrivals[n].filters, st.arrivals[n].u) == [] ==>
                  !st.arrivals[n].fate.Written?)
  {
    hide IsRun, Speaks, Admitted, InQueue, CountLost;
    InitialInv();
    InvRun(INITIAL, steps);
    var st := Final(INITIAL, steps);
    hide Final, ItemOk;
    forall n | 0 <= n < |st.arrivals|
      ensures Fair(st.arrivals[n]) && (st.arrivals[n].fate == Queued ==> InQueue(st.queue, n))
    {
    }
  }

  // ---------------------------------------------------------------- the code

  datatype OutItem = OutItem(u: Update, snap: Snapshot)

  function Bare(queue: seq<Item>): (items: seq<OutItem>)
    ensures |items| == |queue|
    ensures forall i :: 0 <= i < |queue| ==> items[i] == OutItem(queue[i].u, queue[i].snap)
  {
    seq(|queue|, i requires 0 <= i < |queue| => OutItem(queue[i].u, queue[i].snap))
  }

  class LiveSession {
    var subs: Snap
    var outbox: seq<OutItem>      // the session's part of the worker's queue
    var dropped: nat
    var recorded: nat             // the registry's counter
    ghost var model: State        // the same, with the fate of every update so far

    ghost predicate Valid()
      reads this
    {
      && model.snap == subs && Bare(model.queue) == outbox
      && model.dropped == dropped && model.recorded == recorded && model.transit.None?
    }

    constructor ()
      ensures Valid() && model == INITIAL
    {
      subs, outbox, dropped, recorded := None, [], 0, 0;
      model := INITIAL;
    }

    method SyncSubscriptions(fs: seq<Filter>)
      requires Valid()
      modifies this
      ensures Valid() && Speaks(subs, fs) && model == After(old(model), Sync(fs, subs))
    {
      subs := NewSnapshot(fs);
      model := After(model, Sync(fs, subs));
    }

    // The receiver's part. It must not block, so a full queue counts a loss.
    method HandleUpdate(u: Update, room: bool)
      requires Valid()
      modifies this
      ensures Valid() && model == After(old(model), Receive(u, room))
    {
      model := After(model, Receive(u, room));
      if !Wants(subs, u.ctor) {
        return;
      }
      if room {
        outbox := outbox + [OutItem(u, subs.value)];
      } else {
        dropped := dropped + 1;
      }
    }

    // One round of the outbox writer; stored says whether the insert succeeds.
    method WriteOne(stored: bool) returns (ids: seq<string>)
      requires Valid() && outbox != []
      modifies this
      ensures Valid() && model == After(old(model), Write(stored))
      ensures ids == Takers(old(outbox)[0].snap.subs, old(outbox)[0].u)
    {
      ghost var head := model.queue[0];
      model := After(model, Write(stored));
      var it := outbox[0];
      outbox := outbox[1..];
      ids := Route(it.snap, it.u);
      if |ids| == 0 {
        return;
      }
      if !stored {
        dropped := dropped + 1;
      }
    }

    method FlushDropped(stored: bool)
      requires Valid()
      modifies this
      ensures Valid()
      ensures old(dropped) == 0 ==> model == old(model)
      ensures old(dropped) > 0 ==> model == After(After(old(model), Swap), Flush(stored))
      ensures stored ==> dropped == 0 && recorded == old(recorded) + old(dropped)
      ensures !stored ==> dropped == old(dropped) && recorded == old(recorded)
    {
      var n := dropped;
      dropped := 0;
      if n == 0 {
        return;
      }
      model := After(After(model, Swap), Flush(stored));
      if stored {
        recorded := recorded + n;
      } else {
        dropped := dropped + n;
      }
    }
  }
}
