/** The dispatcher as its code has it: one tick claims, groups and starts rounds,
    and a round's goroutine posts its rows until one fails. Both are shown to be
    runs of the steps the safety results are about. */
module Dispatcher {
  import opened Common
  import opened Outbox
  import opened Dispatch

  // The rows after a goroutine posted a round and got these answers.
  function RoundRows(rows: Rows, rest: seq<Delivery>, answers: seq<Answer>): Rows
    requires |answers| == |rest|
    decreases |rest|
  {
    if rest == [] then rows
    else
      var rows' := Recorded(rows, rest[0], answers[0].accepted, answers[0].at);
      if answers[0].accepted then RoundRows(rows', rest[1..], answers[1..]) else rows'
  }

  function RoundSteps(sub: SubId, rest: seq<Delivery>, answers: seq<Answer>): seq<Step>
    requires |answers| == |rest|
    decreases |rest|
  {
    if rest == [] then [Finish(sub)]
    else
      [Post(sub), Wait(answers[0].at), Record(sub, answers[0].accepted)]
      + if answers[0].accepted then RoundSteps(sub, rest[1..], answers[1..]) else [Finish(sub)]
  }

  predicate TimesGoOn(now: int, answers: seq<Answer>) {
    && (forall i :: 0 <= i < |answers| ==> now <= answers[i].at)
    && (forall i, j :: 0 <= i < j < |answers| ==> answers[i].at <= answers[j].at)
  }

  lemma {:induction false} RoundIsRun(st: State, sub: SubId, answers: seq<Answer>)
    requires Inv(st)
    requires sub in st.inflight && !st.inflight[sub].posted
    requires |answers| == |st.inflight[sub].rest| && TimesGoOn(st.now, answers)
    ensures var steps := RoundSteps(sub, st.inflight[sub].rest, answers);
            && IsRun(st, steps)
            && Final(st, steps).rows == RoundRows(st.rows, st.inflight[sub].rest, answers)
            && Final(st, steps).inflight == st.inflight - {sub}
            && Inv(Final(st, steps))
    decreases |answers|
  {
    var rest := st.inflight[sub].rest;
    var steps := RoundSteps(sub, rest, answers);
    hide Inv, Recorded, IsRun, Final, Enabled, After;
    if rest == [] {
      FinishStep(st, sub);
    } else {
      var after := OnePost(st, sub, answers[0]);
      var first := [Post(sub), Wait(answers[0].at), Record(sub, answers[0].accepted)];
      assert after.inflight - {sub} == st.inflight - {sub};
      var tail := if answers[0].accepted then RoundSteps(sub, rest[1..], answers[1..]) else [Finish(sub)];
      if answers[0].accepted {
        assert after.inflight[sub].rest == rest[1..];
        RoundIsRun(after, sub, answers[1..]);
      } else {
        FinishStep(after, sub);
      }
      hide Remaining;
      RunAppend(st, first, tail);
    }
  }

  lemma {:induction false} RunAppend(st: State, a: seq<Step>, b: seq<Step>)
    requires IsRun(st, a) && IsRun(Final(st, a), b)
    ensures IsRun(st, a + b) && Final(st, a + b) == Final(Final(st, a), b)
    decreases |a|
  {
    hide Enabled, After;
    if a == [] {
      assert a + b == b;
    } else {
      RunAppend(After(st, a[0]), a[1..], b);
      assert (a + b)[1..] == a[1..] + b;
    }
  }

  lemma PostStep(st: State, sub: SubId) returns (after: State)
    requires Inv(st)
    requires sub in st.inflight && !st.inflight[sub].posted && st.inflight[sub].rest != []
    ensures Enabled(st, Post(sub)) && after == After(st, Post(sub)) && Inv(after)
    ensures after.now == st.now && after.rows == st.rows
    ensures after.inflight == st.inflight[sub := st.inflight[sub].(posted := true)]
  {
    var d := Head(st, sub);
    hide Inv;
    InvStep(st, Post(sub));
    after := After(st, Post(sub));
  }

  lemma RecordStep(st: State, sub: SubId, accepted: bool) returns (after: State)
    requires Inv(st)
    requires sub in st.inflight && st.inflight[sub].posted && st.inflight[sub].rest != []
    ensures Enabled(st, Record(sub, accepted)) && after == After(st, Record(sub, accepted)) && Inv(after)
    ensures after.now == st.now
    ensures after.rows == Recorded(st.rows, st.inflight[sub].rest[0], accepted, st.now)
    ensures after.inflight == st.inflight[sub := Round(Remaining(st.inflight[sub].rest, accepted), false)]
  {
    var d := Head(st, sub);
    hide Inv, Recorded;
    InvStep(st, Record(sub, accepted));
    after := After(st, Record(sub, accepted));
  }

  lemma ThreeSteps(st: State, a: Step, b: Step, c: Step)
    requires Enabled(st, a) && Enabled(After(st, a), b) && Enabled(After(After(st, a), b), c)
    ensures IsRun(st, [a, b, c]) && Final(st, [a, b, c]) == After(After(After(st, a), b), c)
  {
    hide Enabled, After;
    assert [a, b, c][1..] == [b, c] && [b, c][1..] == [c] && [c][1..] == [];
    var x, y := After(st, a), After(After(st, a), b);
    assert IsRun(y, [c]) && Final(y, [c]) == After(y, c);
    assert IsRun(x, [b, c]) && Final(x, [b, c]) == Final(y, [c]);
  }

  // Posting one row and recording what came back.
  lemma OnePost(st: State, sub: SubId, answer: Answer) returns (after: State)
    requires Inv(st)
    requires sub in st.inflight && !st.inflight[sub].posted && st.inflight[sub].rest != []
    requires st.now <= answer.at
    ensures var steps := [Post(sub), Wait(answer.at), Record(sub, answer.accepted)];
            IsRun(st, steps) && after == Final(st, steps)
    ensures Inv(after) && after.now == answer.at
    ensures after.rows == Recorded(st.rows, st.inflight[sub].rest[0], answer.accepted, answer.at)
    ensures after.inflight == st.inflight[sub := Round(Remaining(st.inflight[sub].rest, answer.accepted), false)]
  {
    hide Inv, Recorded, RowsAfter, InflightAfter, LogAfter, Remaining;
    var posted := PostStep(st, sub);
    var waited := WaitStep(posted, answer.at);
    after := RecordStep(waited, sub, answer.accepted);
    hide Enabled, After;
    ThreeSteps(st, Post(sub), Wait(answer.at), Record(sub, answer.accepted));
    assert after.inflight == st.inflight[sub := Round(Remaining(st.inflight[sub].rest, answer.accepted), false)];
  }

  lemma WaitStep(st: State, later: int) returns (after: State)
    requires Inv(st) && st.now <= later
    ensures Enabled(st, Wait(later)) && after == After(st, Wait(later)) && Inv(after)
    ensures after.now == later && after.rows == st.rows && after.inflight == st.inflight
  {
    hide Inv;
    InvStep(st, Wait(later));
    after := After(st, Wait(later));
  }

  lemma FinishStep(st: State, sub: SubId)
    requires Inv(st) && sub in st.inflight && st.inflight[sub].rest == []
    ensures IsRun(st, [Finish(sub)])
    ensures Final(st, [Finish(sub)]).rows == st.rows
    ensures Final(st, [Finish(sub)]).inflight == st.inflight - {sub}
    ensures Inv(Final(st, [Finish(sub)]))
  {
    hide Inv;
    assert [Finish(sub)][1..] == [];
    InvStep(st, Finish(sub));
  }

  // ids is what a tick that saw these receivers busy may claim.
  ghost predicate IsTick(rows: Rows, served: set<SubId>, busy: set<SubId>, now: int, ids: seq<RowId>)
    ensures IsTick(rows, served, busy, now, ids) ==> Elems(ids) <= rows.Keys
  {
    && Free(busy) > 0
    && IsClaim(rows, Due(rows, served, busy, now), PER_SUB_BATCH, Free(busy) * PER_SUB_BATCH, ids)
    && Elems(ids) <= rows.Keys
  }

  lemma GroupsAreRounds(batch: seq<Delivery>, free: nat, groups: map<SubId, seq<Delivery>>)
    requires groups.Keys == Elems(SubsOf(batch))
    requires forall s :: s in groups ==> groups[s] == RowsOf(batch, s)
    ensures Started(batch, free) == if |SubsOf(batch)| > free then SubsOf(batch)[..free] else SubsOf(batch)
    ensures forall s :: s in Started(batch, free) ==> s in groups
    ensures Rounds(batch, free) == map s | s in Started(batch, free) :: Round(groups[s], false)
  {
  }

  lemma TwoSteps(st: State, a: Step, b: Step)
    requires Enabled(st, a) && Enabled(After(st, a), b)
    ensures IsRun(st, [a, b]) && Final(st, [a, b]) == After(After(st, a), b)
  {
    hide Enabled, After;
    var x := After(st, a);
    var y := After(x, b);
    assert [a, b][1..] == [b] && [b][1..] == [];
    assert IsRun(y, []) && Final(y, []) == y;
    assert IsRun(x, [b]) && Final(x, [b]) == After(x, b);
  }

  // A tick of the code is two steps of the machine, and starts as many receivers
  // as it has room and due work for.
  lemma TickIsRun(st: State, served: set<SubId>, ids: seq<RowId>)
    requires Inv(st) && IsTick(st.rows, served, st.inflight.Keys, st.now, ids)
    ensures var steps := [LookBusy, Claim(served, ids)];
            var free := Free(st.inflight.Keys);
            && IsRun(st, steps)
            && Final(st, steps).rows == st.rows
            && Final(st, steps).inflight == st.inflight + Rounds(Scanned(st.rows, ids), free)
            && |Final(st, steps).inflight.Keys| ==
                 |st.inflight.Keys| + Min(free, |SubsAmong(st.rows, Due(st.rows, served, st.inflight.Keys, st.now))|)
  {
    hide Inv, IsClaim, Due, Scanned, Started, SubsAmong;
    var free := Free(st.inflight.Keys);
    TwoSteps(st, LookBusy, Claim(served, ids));
    hide IsRun, Final;
    StartedSize(st.rows, served, st.inflight.Keys, st.now, ids);
    var more := Rounds(Scanned(st.rows, ids), free);
    assert (st.inflight + more).Keys == st.inflight.Keys + more.Keys;
  }

  lemma StartedSize(rows: Rows, served: set<SubId>, busy: set<SubId>, now: int, ids: seq<RowId>)
    requires IsTick(rows, served, busy, now, ids)
    ensures var more := Rounds(Scanned(rows, ids), Free(busy)).Keys;
            && |more| == Min(Free(busy), |SubsAmong(rows, Due(rows, served, busy, now))|)
            && more !! busy
  {
    var due := Due(rows, served, busy, now);
    TickIsFull(rows, due, PER_SUB_BATCH, Free(busy), ids);
    NoneBusy(rows, served, busy, now);
    hide IsClaim, Due, Scanned, Started, SubsAmong;
    var subs := Started(Scanned(rows, ids), Free(busy));
    NoDupSize(subs);
    assert Rounds(Scanned(rows, ids), Free(busy)).Keys == Elems(subs);
  }

  class Manager {
    var rows: Rows                      // webhook_delivery, in the registry
    var inflight: map<SubId, Round>     // receivers being posted to

    constructor ()
      ensures rows == map[] && inflight == map[]
    {
      rows, inflight := map[], map[];
    }

    method MarkDelivered(id: RowId)
      modifies this`rows
      ensures rows == if id !in old(rows) then old(rows)
                      else old(rows)[id := old(rows)[id].(status := Status.Delivered, attempts := old(rows)[id].attempts + 1)]
    {
      if id in rows {
        rows := rows[id := rows[id].(status := Status.Delivered, attempts := rows[id].attempts + 1)];
      }
    }

    method FailDelivery(id: RowId, nextTry: int, giveUp: bool)
      modifies this`rows
      ensures id !in old(rows) ==> rows == old(rows)
      ensures id in old(rows) ==>
                rows == old(rows)[id := old(rows)[id].(attempts := old(rows)[id].attempts + 1,
                                                       status := if giveUp then Failed else old(rows)[id].status,
                                                       nextTry := if giveUp then old(rows)[id].nextTry else nextTry)]
    {
      if id in rows {
        var row := rows[id];
        rows := rows[id := row.(attempts := row.attempts + 1,
                                status := if giveUp then Failed else row.status,
                                nextTry := if giveUp then row.nextTry else nextTry)];
      }
    }

    // answer is what the receiver makes of the post: a 2xx or anything else.
    method DeliverOne(d: Delivery, answer: Answer) returns (accepted: bool)
      modifies this`rows
      ensures accepted == answer.accepted
      ensures rows == Recorded(old(rows), d, answer.accepted, answer.at)
    {
      if answer.accepted {
        MarkDelivered(d.id);
        return true;
      }
      var giveUp := d.attempts + 1 >= MAX_ATTEMPTS;
      var backoff := Min(BACKOFF_CAP, BACKOFF_BASE * Pow2(d.attempts));
      FailDelivery(d.id, answer.at + backoff, giveUp);
      return false;
    }

    // The goroutine of one receiver, with the answers its posts would get.
    method RunRound(sub: SubId, answers: seq<Answer>)
      requires sub in inflight && |answers| == |inflight[sub].rest|
      modifies this
      ensures rows == RoundRows(old(rows), old(inflight)[sub].rest, answers)
      ensures inflight == old(inflight) - {sub}
    {
      var round := inflight[sub].rest;
      var i := 0;
      while i < |round|
        invariant 0 <= i <= |round| && inflight == old(inflight)
        invariant RoundRows(rows, round[i..], answers[i..]) == RoundRows(old(rows), round, answers)
      {
        assert round[i..][1..] == round[i + 1..] && answers[i..][1..] == answers[i + 1..];
        var accepted := DeliverOne(round[i], answers[i]);
        if !accepted {
          break;
        }
        i := i + 1;
      }
      inflight := inflight - {sub};
    }

    // One tick. It starts what the machine's LookBusy and Claim start.
    method Tick(served: set<SubId>, now: int) returns (ghost ids: seq<RowId>)
      modifies this`inflight
      ensures Free(old(inflight).Keys) <= 0 ==> inflight == old(inflight)
      ensures Free(old(inflight).Keys) > 0 ==>
                && IsTick(rows, served, old(inflight).Keys, now, ids)
                && inflight == old(inflight) + Rounds(Scanned(rows, ids), Free(old(inflight).Keys))
    {
      hide IsTick, Scanned, SubsOf, RowsOf;
      var busy := inflight.Keys;
      var free := MAX_INFLIGHT - |busy|;
      ids := [];
      if free <= 0 {
        return;
      }
      var batch;
      batch, ids := ClaimDeliveries(served, busy, free, now);
      var groups, order := GroupBySubscription(batch);
      if |order| > free {
        order := order[..free];
      }
      GroupsAreRounds(batch, free, groups);
      hide Started, Rounds;
      StartRounds(groups, order);
    }

    method ClaimDeliveries(served: set<SubId>, busy: set<SubId>, free: nat, now: int)
      returns (batch: seq<Delivery>, ghost ids: seq<RowId>)
      requires free == Free(busy) && free > 0
      ensures IsTick(rows, served, busy, now, ids) && batch == Scanned(rows, ids)
    {
      batch, ids := SelectDue(rows, served, busy, PER_SUB_BATCH, free * PER_SUB_BATCH, now);
    }

    method StartRounds(groups: map<SubId, seq<Delivery>>, order: seq<SubId>)
      requires forall s :: s in order ==> s in groups
      modifies this`inflight
      ensures inflight == old(inflight) + map s | s in order :: Round(groups[s], false)
    {
      for i := 0 to |order|
        invariant inflight == old(inflight) + map s | s in order[..i] :: Round(groups[s], false)
      {
        inflight := inflight[order[i] := Round(groups[order[i]], false)];
        assert order[..i + 1] == order[..i] + [order[i]];
      }
      assert order[..|order|] == order;
    }
  }
}
