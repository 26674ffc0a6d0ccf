/** One tick of the webhook dispatcher: which due rows the claim returns, how they
    are grouped into rounds, and who is served when there is more work than room. */
module Outbox {
  import opened Common

  type RowId = nat
  type SubId = nat

  const MAX_ATTEMPTS := 10
  const BACKOFF_BASE := 5 * SECOND
  const BACKOFF_CAP := 5 * MINUTE
  const MAX_INFLIGHT := 16
  const PER_SUB_BATCH := 100

  datatype Status = Pending | Delivered | Failed
  datatype Row = Row(sub: SubId, status: Status, attempts: nat, nextTry: int, createdAt: int)
  type Rows = map<RowId, Row>

  // A claimed row as the worker carries it: a copy, not the row itself.
  datatype Delivery = Delivery(id: RowId, sub: SubId, attempts: nat)

  // The rows the claim query may return. served holds the subscriptions whose
  // session this worker owns and whose token, if any, still covers that session.
  function Due(rows: Rows, served: set<SubId>, busy: set<SubId>, now: int): set<RowId> {
    set id | id in rows && rows[id].status == Pending && rows[id].nextTry <= now
             && rows[id].sub in served && rows[id].sub !in busy
  }

  function SubsAmong(rows: Rows, ids: set<RowId>): set<SubId>
    requires ids <= rows.Keys
  {
    set id | id in ids :: rows[id].sub
  }

  function OfSub(rows: Rows, ids: set<RowId>, s: SubId): set<RowId>
    requires ids <= rows.Keys
  {
    set id | id in ids && rows[id].sub == s
  }

  predicate Before(a: Row, b: Row) {
    a.nextTry < b.nextTry || (a.nextTry == b.nextTry && a.createdAt < b.createdAt)
  }

  // rn <= perSub: each subscription keeps its perSub earliest rows, ties at will.
  ghost predicate IsKept(rows: Rows, due: set<RowId>, perSub: nat, kept: set<RowId>)
    requires due <= rows.Keys
  {
    && kept <= due
    && (forall s: SubId :: |OfSub(rows, kept, s)| == Min(perSub, |OfSub(rows, due, s)|))
    && (forall a, b :: a in kept && b in due && b !in kept && rows[a].sub == rows[b].sub ==>
          !Before(rows[b], rows[a]))
  }

  predicate InOrder(rows: Rows, ids: seq<RowId>)
    requires Elems(ids) <= rows.Keys
  {
    forall i, j :: 0 <= i < j < |ids| ==> ids[i] in rows && ids[j] in rows && rows[ids[i]].nextTry <= rows[ids[j]].nextTry
  }

  // ORDER BY next_try_at LIMIT limit, ties at will.
  ghost predicate IsFirst(rows: Rows, kept: set<RowId>, limit: nat, ids: seq<RowId>)
    requires kept <= rows.Keys
  {
    && NoDup(ids) && Elems(ids) <= kept
    && InOrder(rows, ids)
    && |ids| == Min(limit, |kept|)
    && (forall i, r :: 0 <= i < |ids| && r in kept && r !in ids ==> ids[i] in rows && rows[ids[i]].nextTry <= rows[r].nextTry)
  }

  ghost predicate IsClaim(rows: Rows, due: set<RowId>, perSub: nat, limit: nat, ids: seq<RowId>)
    requires due <= rows.Keys
  {
    exists kept :: IsKept(rows, due, perSub, kept) && IsFirst(rows, kept, limit, ids)
  }

  function Scanned(rows: Rows, ids: seq<RowId>): (batch: seq<Delivery>)
    requires Elems(ids) <= rows.Keys
    ensures |batch| == |ids|
    ensures forall i :: 0 <= i < |ids| ==>
              batch[i].id == ids[i] && ids[i] in rows && batch[i].sub == rows[ids[i]].sub
              && batch[i].attempts == rows[ids[i]].attempts
  {
    if ids == [] then []
    else
      var last := ids[|ids| - 1];
      assert last in Elems(ids);
      assert Elems(ids[..|ids| - 1]) <= Elems(ids);
      Scanned(rows, ids[..|ids| - 1]) + [Delivery(last, rows[last].sub, rows[last].attempts)]
  }

  // ---------------------------------------------------------------- grouping

  // The rows of one subscription, in claim order.
  function RowsOf(batch: seq<Delivery>, s: SubId): (rows: seq<Delivery>)
    ensures forall d :: d in rows <==> d in batch && d.sub == s
  {
    if batch == [] then []
    else
      var init, last := batch[..|batch| - 1], batch[|batch| - 1];
      assert batch == init + [last];
      if last.sub == s then RowsOf(init, s) + [last] else RowsOf(init, s)
  }

  // The subscriptions of a batch, each once, by their first row.
  function SubsOf(batch: seq<Delivery>): (subs: seq<SubId>)
    ensures NoDup(subs)
    ensures forall s :: s in subs <==> exists d :: d in batch && d.sub == s
  {
    if batch == [] then []
    else
      var init, last := batch[..|batch| - 1], batch[|batch| - 1];
      assert batch == init + [last];
      if last.sub in SubsOf(init) then SubsOf(init) else SubsOf(init) + [last.sub]
  }

  method GroupBySubscription(batch: seq<Delivery>)
    returns (groups: map<SubId, seq<Delivery>>, order: seq<SubId>)
    ensures order == SubsOf(batch)
    ensures groups.Keys == Elems(order)
    ensures forall s :: s in groups ==> groups[s] == RowsOf(batch, s)
  {
    groups, order := map[], [];
    for i := 0 to |batch|
      invariant order == SubsOf(batch[..i])
      invariant groups.Keys == Elems(order)
      invariant forall s :: s in groups ==> groups[s] == RowsOf(batch[..i], s)
    {
      var d := batch[i];
      assert batch[..i + 1][..i] == batch[..i];
      NoRows(batch[..i], d.sub);
      if d.sub !in groups {
        order := order + [d.sub];
        groups := groups[d.sub := []];
      }
      groups := groups[d.sub := groups[d.sub] + [d]];
    }
    assert batch[..|batch|] == batch;
  }

  lemma NoRows(batch: seq<Delivery>, s: SubId)
    ensures s in SubsOf(batch) <==> RowsOf(batch, s) != []
  {
    if RowsOf(batch, s) != [] {
      assert RowsOf(batch, s)[0] in RowsOf(batch, s);
    }
  }

  // Splitting loses and repeats nothing: a row of the batch is in exactly the
  // round of its own subscription, as often as the batch has it.
  lemma {:induction false} GroupsPartition(batch: seq<Delivery>, d: Delivery, s: SubId)
    ensures multiset(RowsOf(batch, s))[d] == if d.sub == s then multiset(batch)[d] else 0
  {
    if batch != [] {
      var init, last := batch[..|batch| - 1], batch[|batch| - 1];
      GroupsPartition(init, d, s);
      assert batch == init + [last];
    }
  }

  // The head of an earlier subscription's round precedes the head of a later one.
  lemma {:induction false} HeadsInOrder(batch: seq<Delivery>, i: nat, j: nat)
    requires i < j < |SubsOf(batch)|
    ensures RowsOf(batch, SubsOf(batch)[i]) != [] && RowsOf(batch, SubsOf(batch)[j]) != []
    ensures exists a, b :: 0 <= a < b < |batch|
              && batch[a] == RowsOf(batch, SubsOf(batch)[i])[0] && batch[b] == RowsOf(batch, SubsOf(batch)[j])[0]
  {
    var init, last := batch[..|batch| - 1], batch[|batch| - 1];
    var subs := SubsOf(batch);
    if j < |SubsOf(init)| {
      HeadsInOrder(init, i, j);
    } else {
      NoRows(init, subs[i]);
      NoRows(init, subs[j]);
      assert RowsOf(init, subs[i])[0] in init;
      var a :| 0 <= a < |init| && init[a] == RowsOf(init, subs[i])[0];
      assert batch[a] == RowsOf(batch, subs[i])[0] && batch[|batch| - 1] == RowsOf(batch, subs[j])[0];
    }
  }

  // ---------------------------------------------------------------- fairness

  lemma SomeSub(rows: Rows, ids: set<RowId>)
    requires ids <= rows.Keys
    ensures SubsAmong(rows, ids) == {} <==> ids == {}
  {
    if ids != {} {
      var id :| id in ids;
      assert rows[id].sub in SubsAmong(rows, ids);
    }
  }

  lemma {:induction false} OneMore(n: nat, m: nat, p: nat)
    requires m > n
    ensures n * p + p <= m * p
    decreases m
  {
    assert m * p == (m - 1) * p + p;
    if n < m - 1 {
      OneMore(n, m - 1, p);
    }
  }

  lemma {:induction false} Pigeonhole(rows: Rows, ids: set<RowId>, subs: set<SubId>, perSub: nat)
    requires ids <= rows.Keys && SubsAmong(rows, ids) <= subs
    requires forall s :: s in subs ==> |OfSub(rows, ids, s)| <= perSub
    ensures |ids| <= |subs| * perSub
  {
    if subs == {} {
      SomeSub(rows, ids);
    } else {
      var s :| s in subs;
      var rest := ids - OfSub(rows, ids, s);
      assert ids == rest + OfSub(rows, ids, s);
      assert |ids| <= |rest| + perSub;
      forall t | t in subs - {s}
        ensures |OfSub(rows, rest, t)| <= perSub
      {
        SubsetSize(OfSub(rows, rest, t), OfSub(rows, ids, t));
      }
      forall t | t in SubsAmong(rows, rest)
        ensures t in subs - {s}
      {
        var id :| id in rest && rows[id].sub == t;
        assert t in SubsAmong(rows, ids);
      }
      Pigeonhole(rows, rest, subs - {s}, perSub);
      OneMore(|subs - {s}|, |subs|, perSub);
    }
  }

  function Started(batch: seq<Delivery>, free: nat): (subs: seq<SubId>)
    ensures |subs| == Min(free, |SubsOf(batch)|) && NoDup(subs)
  {
    SubsOf(batch)[..Min(free, |SubsOf(batch)|)]
  }

  lemma SameSize<T>(a: set<T>, b: set<T>)
    requires a <= b && |a| == |b|
    ensures a == b
  {
    SubsetSize(b - a, b);
    assert b == a + (b - a);
    assert |b - a| == 0;
  }

  lemma {:induction false} Earliest(rows: Rows, ids: set<RowId>) returns (e: RowId)
    requires ids <= rows.Keys && ids != {}
    ensures e in ids && forall r :: r in ids ==> rows[e].nextTry <= rows[r].nextTry
    decreases |ids|
  {
    e :| e in ids;
    var rest := ids - {e};
    if rest != {} {
      var f := Earliest(rows, rest);
      if rows[f].nextTry < rows[e].nextTry {
        e := f;
      }
      assert ids == rest + {e} || ids == rest + (ids - rest);
    }
  }

  // A subscription with a due row keeps its earliest one.
  lemma KeptHead(rows: Rows, due: set<RowId>, perSub: nat, kept: set<RowId>, s: SubId) returns (k: RowId)
    requires due <= rows.Keys && IsKept(rows, due, perSub, kept)
    requires 0 < perSub && s in SubsAmong(rows, due)
    ensures k in kept && k in rows && rows[k].sub == s
    ensures forall r :: r in due && rows[r].sub == s ==> rows[k].nextTry <= rows[r].nextTry
  {
    var d :| d in due && rows[d].sub == s;
    assert d in OfSub(rows, due, s);
    assert |OfSub(rows, kept, s)| > 0;
    k := Earliest(rows, OfSub(rows, kept, s));
  }

  // The head of a round is at or before each of the round's rows in the batch.
  lemma {:induction false} HeadFirst(batch: seq<Delivery>, i: nat)
    requires i < |batch|
    ensures RowsOf(batch, batch[i].sub) != []
    ensures exists a :: 0 <= a <= i && batch[a] == RowsOf(batch, batch[i].sub)[0]
  {
    var n := |batch| - 1;
    var init, s := batch[..n], batch[i].sub;
    assert batch == init + [batch[n]];
    if i < n {
      HeadFirst(init, i);
      var a :| 0 <= a <= i && init[a] == RowsOf(init, s)[0];
      assert batch[a] == RowsOf(batch, s)[0];
    } else if RowsOf(init, s) == [] {
      assert batch[n] == RowsOf(batch, s)[0];
    } else {
      assert RowsOf(init, s)[0] in init;
      var a :| 0 <= a < |init| && init[a] == RowsOf(init, s)[0];
      assert batch[a] == RowsOf(batch, s)[0];
    }
  }

  // The round of a claimed subscription begins with that subscription's earliest
  // due row, however the limit cut the batch.
  lemma HeadIsEarliest(rows: Rows, due: set<RowId>, perSub: nat, limit: nat, kept: set<RowId>, ids: seq<RowId>, s: SubId)
    requires due <= rows.Keys && IsKept(rows, due, perSub, kept) && IsFirst(rows, kept, limit, ids)
    requires 0 < perSub && s in SubsOf(Scanned(rows, ids))
    ensures RowsOf(Scanned(rows, ids), s) != []
    ensures var h := RowsOf(Scanned(rows, ids), s)[0];
            && h.sub == s && h.id in ids && h.id in due
            && forall r :: r in due && rows[r].sub == s ==> rows[h.id].nextTry <= rows[r].nextTry
  {
    var batch := Scanned(rows, ids);
    NoRows(batch, s);
    var h := RowsOf(batch, s)[0];
    assert h in RowsOf(batch, s) && h in batch;
    var a :| 0 <= a < |batch| && batch[a] == h;
    assert ids[a] in Elems(ids) && ids[a] == h.id && rows[h.id].sub == s;
    var k := KeptHead(rows, due, perSub, kept, s);
    if k in ids {
      HeadBefore(rows, ids, k);
    }
  }

  // A claimed row is no earlier than the head of its round.
  lemma HeadBefore(rows: Rows, ids: seq<RowId>, k: RowId)
    requires Elems(ids) <= rows.Keys && InOrder(rows, ids) && k in ids
    ensures k in rows && RowsOf(Scanned(rows, ids), rows[k].sub) != []
    ensures var h := RowsOf(Scanned(rows, ids), rows[k].sub)[0];
            h.id in rows && rows[h.id].nextTry <= rows[k].nextTry
  {
    hide RowsOf, Scanned;
    var batch := Scanned(rows, ids);
    var i :| 0 <= i < |ids| && ids[i] == k;
    assert batch[i].sub == rows[k].sub;
    HeadFirst(batch, i);
    var b :| 0 <= b <= i && batch[b] == RowsOf(batch, rows[k].sub)[0];
    assert ids[b] == batch[b].id;
  }

  lemma EligibleServed(rows: Rows, due: set<RowId>, perSub: nat, free: nat, kept: set<RowId>, ids: seq<RowId>)
    requires due <= rows.Keys && IsKept(rows, due, perSub, kept) && IsFirst(rows, kept, free * perSub, ids)
    requires 0 < perSub
    ensures Elems(SubsOf(Scanned(rows, ids))) <= SubsAmong(rows, due)
    ensures free <= |SubsOf(Scanned(rows, ids))| || Elems(SubsOf(Scanned(rows, ids))) == SubsAmong(rows, due)
  {
    var batch := Scanned(rows, ids);
    var subs := Elems(SubsOf(batch));
    forall s | s in subs
      ensures s in SubsAmong(rows, due)
    {
      HeadIsEarliest(rows, due, perSub, free * perSub, kept, ids, s);
    }
    NoDupSize(ids);
    if |ids| == |kept| {
      SameSize(Elems(ids), kept);
      forall s | s in SubsAmong(rows, due)
        ensures s in subs
      {
        var k := KeptHead(rows, due, perSub, kept, s);
        assert k in Elems(ids);
        var i :| 0 <= i < |ids| && ids[i] == k;
        assert batch[i] in batch && batch[i].sub == s;
      }
    } else {
      FullBatch(rows, due, perSub, free, kept, ids);
    }
  }

  // The pigeonhole: a batch of free * perSub rows, at most perSub of each
  // subscription, names at least free subscriptions.
  lemma FullBatch(rows: Rows, due: set<RowId>, perSub: nat, free: nat, kept: set<RowId>, ids: seq<RowId>)
    requires due <= rows.Keys && IsKept(rows, due, perSub, kept) && IsFirst(rows, kept, free * perSub, ids)
    requires 0 < perSub && |ids| == free * perSub
    ensures free <= |SubsOf(Scanned(rows, ids))|
  {
    var batch := Scanned(rows, ids);
    var subs := SubsOf(batch);
    var all := Elems(ids);
    forall s | s in Elems(subs)
      ensures |OfSub(rows, all, s)| <= perSub
    {
      SubsetSize(OfSub(rows, all, s), OfSub(rows, kept, s));
    }
    forall s | s in SubsAmong(rows, all)
      ensures s in Elems(subs)
    {
      var id :| id in all && rows[id].sub == s;
      var i :| 0 <= i < |ids| && ids[i] == id;
      assert batch[i] in batch;
    }
    Pigeonhole(rows, all, Elems(subs), perSub);
    NoDupSize(ids);
    NoDupSize(subs);
    if |subs| < free {
      OneMore(|subs|, free, perSub);
    }
  }

  // One tick starts exactly as many receivers as there is room for and work for,
  // whatever the backlogs.
  lemma TickIsFull(rows: Rows, due: set<RowId>, perSub: nat, free: nat, ids: seq<RowId>)
    requires due <= rows.Keys && IsClaim(rows, due, perSub, free * perSub, ids)
    requires 0 < perSub
    ensures |Started(Scanned(rows, ids), free)| == Min(free, |SubsAmong(rows, due)|)
    ensures Elems(Started(Scanned(rows, ids), free)) <= SubsAmong(rows, due)
  {
    var kept :| IsKept(rows, due, perSub, kept) && IsFirst(rows, kept, free * perSub, ids);
    EligibleServed(rows, due, perSub, free, kept, ids);
    var subs := SubsOf(Scanned(rows, ids));
    NoDupSize(subs);
    SubsetSize(Elems(subs), SubsAmong(rows, due));
  }

  lemma EarlierHead(batch: seq<Delivery>, free: nat, s: SubId, t: SubId)
    requires s in Started(batch, free) && t in SubsOf(batch) && t !in Started(batch, free)
    ensures RowsOf(batch, s) != [] && RowsOf(batch, t) != []
    ensures exists a, b :: 0 <= a < b < |batch| && batch[a] == RowsOf(batch, s)[0] && batch[b] == RowsOf(batch, t)[0]
  {
    hide RowsOf;
    var subs := SubsOf(batch);
    var x :| 0 <= x < |Started(batch, free)| && Started(batch, free)[x] == s;
    var y :| 0 <= y < |subs| && subs[y] == t;
    assert forall i :: 0 <= i < |Started(batch, free)| ==> Started(batch, free)[i] == subs[i];
    HeadsInOrder(batch, x, y);
  }

  // And it starts the longest-waiting ones: no due row of a subscription left out
  // is strictly earlier than the row a started round begins with.
  lemma TickIsFair(rows: Rows, due: set<RowId>, perSub: nat, free: nat, ids: seq<RowId>, s: SubId, r: RowId)
    requires due <= rows.Keys && IsClaim(rows, due, perSub, free * perSub, ids)
    requires 0 < perSub
    requires s in Started(Scanned(rows, ids), free)
    requires r in due && rows[r].sub !in Started(Scanned(rows, ids), free)
    ensures RowsOf(Scanned(rows, ids), s) != []
    ensures var h := RowsOf(Scanned(rows, ids), s)[0];
            h.id in due && rows[h.id].sub == s && rows[h.id].nextTry <= rows[r].nextTry
  {
    var kept :| IsKept(rows, due, perSub, kept) && IsFirst(rows, kept, free * perSub, ids);
    var batch, t := Scanned(rows, ids), rows[r].sub;
    var subs := SubsOf(batch);
    HeadIsEarliest(rows, due, perSub, free * perSub, kept, ids, s);
    var h := RowsOf(batch, s)[0];
    var k := KeptHead(rows, due, perSub, kept, t);
    if k in ids {
      var i :| 0 <= i < |ids| && ids[i] == k;
      assert batch[i] in batch && t in subs;
      HeadIsEarliest(rows, due, perSub, free * perSub, kept, ids, t);
      EarlierHead(batch, free, s, t);
      var a, b :| 0 <= a < b < |batch| && batch[a] == h && batch[b] == RowsOf(batch, t)[0];
      assert ids[a] == h.id && ids[b] == RowsOf(batch, t)[0].id;
    }
  }

  // ---------------------------------------------------------------- the query

  lemma {:induction false} Oldest(rows: Rows, ids: set<RowId>) returns (e: RowId)
    requires ids <= rows.Keys && ids != {}
    ensures e in ids && forall r :: r in ids ==> !Before(rows[r], rows[e])
    decreases |ids|
  {
    e :| e in ids;
    var rest := ids - {e};
    assert forall r :: r in ids ==> r == e || r in rest;
    if rest != {} {
      var f := Oldest(rows, rest);
      if Before(rows[f], rows[e]) {
        e := f;
      }
    }
  }

  // The statement of the claim, evaluated: rank within each subscription, keep
  // the first perSub of each, order by due time, cut at limit.
  method SelectDue(rows: Rows, served: set<SubId>, busy: set<SubId>, perSub: nat, limit: nat, now: int)
    returns (batch: seq<Delivery>, ids: seq<RowId>)
    ensures IsClaim(rows, Due(rows, served, busy, now), perSub, limit, ids)
    ensures Elems(ids) <= rows.Keys && batch == Scanned(rows, ids)
  {
    var due := Due(rows, served, busy, now);
    var rest, order: seq<RowId> := due, [];
    assert due <= rows.Keys && due - rest == {} == Elems(order);
    assert IsKept(rows, due - rest, perSub, Elems(order)) && NoDup(order) && InOrder(rows, order);
    hide IsKept, IsFirst, InOrder, NoDup, Scanned, Due;
    while rest != {}
      invariant rest <= due && Elems(order) <= due - rest
      invariant NoDup(order) && InOrder(rows, order)
      invariant forall x, r :: x in due - rest && r in rest ==> !Before(rows[r], rows[x])
      invariant IsKept(rows, due - rest, perSub, Elems(order))
      decreases |rest|
    {
      ghost var oldest := Oldest(rows, rest);
      var r :| r in rest && forall q :: q in rest ==> !Before(rows[q], rows[r]);
      var s := rows[r].sub;
      var seen := due - rest;
      rest := rest - {r};
      assert due - rest == seen + {r};
      if |OfSub(rows, Elems(order), s)| < perSub {
        KeepOne(rows, seen, perSub, Elems(order), r);
        AppendLater(rows, order, r);
        order := order + [r];
      } else {
        DropOne(rows, seen, perSub, Elems(order), r);
      }
    }
    assert due - rest == due;
    var n := Min(limit, |order|);
    CutAtLimit(rows, order, limit);
    ids := order[..n];
    batch := Scanned(rows, order[..n]);
  }

  lemma CutAtLimit(rows: Rows, order: seq<RowId>, limit: nat)
    requires Elems(order) <= rows.Keys && NoDup(order) && InOrder(rows, order)
    ensures Elems(order[..Min(limit, |order|)]) <= Elems(order)
    ensures IsFirst(rows, Elems(order), limit, order[..Min(limit, |order|)])
  {
    NoDupSize(order);
    var n := Min(limit, |order|);
    assert Elems(order[..n]) <= Elems(order);
    forall i, k | 0 <= i < n && k in order && k !in order[..n]
      ensures order[i] in rows && rows[order[i]].nextTry <= rows[k].nextTry
    {
      var j :| 0 <= j < |order| && order[j] == k;
      assert forall m :: 0 <= m < n ==> order[..n][m] == order[m];
    }
  }

  lemma AppendLater(rows: Rows, order: seq<RowId>, r: RowId)
    requires Elems(order) <= rows.Keys && r in rows && NoDup(order) && InOrder(rows, order)
    requires r !in Elems(order)
    requires forall x :: x in Elems(order) ==> !Before(rows[r], rows[x])
    ensures Elems(order + [r]) == Elems(order) + {r}
    ensures NoDup(order + [r]) && InOrder(rows, order + [r])
  {
    assert forall i :: 0 <= i < |order| ==> order[i] in Elems(order);
  }

  lemma OneMoreOf(rows: Rows, ids: set<RowId>, r: RowId, s: SubId)
    requires ids <= rows.Keys && r in rows && r !in ids
    ensures |OfSub(rows, ids + {r}, s)| == |OfSub(rows, ids, s)| + if s == rows[r].sub then 1 else 0
  {
    if s == rows[r].sub {
      assert OfSub(rows, ids + {r}, s) == OfSub(rows, ids, s) + {r};
    } else {
      assert OfSub(rows, ids + {r}, s) == OfSub(rows, ids, s);
    }
  }

  // When fewer than perSub rows of a subscription are kept, all it had are.
  lemma AllKept(rows: Rows, seen: set<RowId>, perSub: nat, kept: set<RowId>, s: SubId)
    requires seen <= rows.Keys && IsKept(rows, seen, perSub, kept)
    requires |OfSub(rows, kept, s)| < perSub
    ensures forall b :: b in seen && rows[b].sub == s ==> b in kept
  {
    SubsetSize(OfSub(rows, kept, s), OfSub(rows, seen, s));
    SameSize(OfSub(rows, kept, s), OfSub(rows, seen, s));
    forall b | b in seen && rows[b].sub == s
      ensures b in kept
    {
      assert b in OfSub(rows, kept, s);
    }
  }

  lemma KeepOne(rows: Rows, seen: set<RowId>, perSub: nat, kept: set<RowId>, r: RowId)
    requires seen <= rows.Keys && r in rows && r !in seen && IsKept(rows, seen, perSub, kept)
    requires |OfSub(rows, kept, rows[r].sub)| < perSub
    requires forall x :: x in seen ==> !Before(rows[r], rows[x])
    ensures IsKept(rows, seen + {r}, perSub, kept + {r})
  {
    AllKept(rows, seen, perSub, kept, rows[r].sub);
    hide OfSub;
    forall s: SubId
      ensures |OfSub(rows, kept + {r}, s)| == Min(perSub, |OfSub(rows, seen + {r}, s)|)
    {
      OneMoreOf(rows, kept, r, s);
      OneMoreOf(rows, seen, r, s);
    }
  }

  lemma DropOne(rows: Rows, seen: set<RowId>, perSub: nat, kept: set<RowId>, r: RowId)
    requires seen <= rows.Keys && r in rows && r !in seen && IsKept(rows, seen, perSub, kept)
    requires |OfSub(rows, kept, rows[r].sub)| >= perSub
    requires forall x :: x in seen ==> !Before(rows[r], rows[x])
    ensures IsKept(rows, seen + {r}, perSub, kept)
  {
    hide OfSub;
    forall s: SubId
      ensures |OfSub(rows, kept, s)| == Min(perSub, |OfSub(rows, seen + {r}, s)|)
    {
      OneMoreOf(rows, seen, r, s);
    }
  }
}
