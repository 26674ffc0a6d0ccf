/** Rebalancing converges: with a fixed set of live workers and a fixed set of
    authorized sessions, every shed and every claim, in any interleaving, lowers
    one measure, and a state where nobody can act is balanced. */
module Rebalance {
  import opened Common
  import opened Registry
  import opened Fleet

  // --- the measure ---

  function Load(rows: Rows, w: WorkerId): nat {
    |Owned(rows, w)|
  }

  function FairShare(rows: Rows, ws: seq<WorkerId>): nat {
    Share(|AllAuthorized(rows)|, |ws|)
  }

  // How far the workers are above their share, in total.
  function Excess(rows: Rows, ws: seq<WorkerId>, share: nat): nat {
    if ws == [] then 0 else Max(Load(rows, ws[0]) - share, 0) + Excess(rows, ws[1..], share)
  }

  // Authorized sessions without a live owner.
  function Unhosted(rows: Rows, ws: seq<WorkerId>): set<SessionId> {
    set s | s in rows && rows[s].status == Authorized && (rows[s].owner.None? || rows[s].owner.value !in ws)
  }

  function Measure(rows: Rows, ws: seq<WorkerId>): nat {
    2 * Excess(rows, ws, FairShare(rows, ws)) + |Unhosted(rows, ws)|
  }

  // --- a steady fleet ---

  // Exactly the workers ws are alive: their heartbeats are fresh, and anyone
  // else was last seen no later than deadline, before any pass in progress.
  ghost predicate Steady(g: Fleet, ws: seq<WorkerId>, deadline: int) {
    && ws != [] && NoDup(ws) && deadline <= g.now - WORKER_STALE
    && (forall w :: w in ws ==> w in g.procs && Fresh(g, w))
    && (forall w :: w in g.beats && w !in ws ==> g.beats[w] <= deadline)
    && (forall w :: w in ws && !g.procs[w].todo.Idle? ==>
          deadline <= g.procs[w].cutoff <= g.now - WORKER_STALE)
  }

  predicate HeldByOwner(rows: Rows, w: WorkerId, live: map<SessionId, Entry>) {
    forall s :: s in live ==>
      && (s in rows ==> rows[s].owner == Some(w))
      && (live[s] != Pending ==> IsAuthorized(rows, s))
      && (live[s] == Pending ==> !IsAuthorized(rows, s))
  }

  // What a worker knows and plans agrees with the registry, although it read it
  // earlier.
  predicate InStep(rows: Rows, ws: seq<WorkerId>, w: WorkerId, p: Proc) {
    HeldByOwner(rows, w, p.live) && PlanInStep(rows, ws, w, p)
  }

  predicate PlanInStep(rows: Rows, ws: seq<WorkerId>, w: WorkerId, p: Proc) {
    match p.todo
    case Fencing(ids) => ids == []
    case Adopting(ids) => Elems(ids) <= Owned(rows, w)
    case Loaded(mine, total, alive) =>
      mine == Load(rows, w) && total == |AllAuthorized(rows)| && alive == |ws|
    case Shedding(ids) =>
      NoDup(ids) && Elems(ids) <= UsableSessions(p) && (ids != [] ==> |ids| <= Load(rows, w) - FairShare(rows, ws))
    case Dropping(id, rest) =>
      && NoDup([id] + rest) && Elems([id] + rest) <= UsableSessions(p) && id in Owned(rows, w)
      && 1 + |rest| <= Load(rows, w) - FairShare(rows, ws)
    case Releasing(id, rest) =>
      && NoDup([id] + rest) && Elems(rest) <= UsableSessions(p) && id in Owned(rows, w) && id !in p.live
      && 1 + |rest| <= Load(rows, w) - FairShare(rows, ws)
    case Claimed(ids) => NoDup(ids) && Elems(ids) <= Owned(rows, w) && Elems(ids) !! p.live.Keys
    case _ => true
  }

  ghost predicate Calm(g: Fleet, ws: seq<WorkerId>) {
    && (forall s :: IsAuthorized(g.rows, s) ==> g.rows[s].openable)
    && (forall w :: w in ws ==> w in g.procs && InStep(g.rows, ws, w, g.procs[w]))
  }

  // The steps of a fleet that only reconciles: live workers going through their
  // passes, with opens and closes that succeed.
  predicate Reconciles(g: Fleet, ws: seq<WorkerId>, a: Action) {
    a.By? ==>
      && a.w in ws && a.w in g.procs
      && match a.step
         case CloseNext(closed) => closed
         case AdoptNext(result) => Opening(g.procs[a.w], a.step, g.now).Some? ==> result == Opened
         case HydrateNext(result) => Opening(g.procs[a.w], a.step, g.now).Some? ==> result == Opened
         case Unlock(_) => false
         case CreateLogin(_) => false
         case LoginProgress(_, _) => false
         case LoginReady(_) => false
         case LoginFailed(_) => false
         case DeleteClose(_, _) => false
         case DeleteDrop(_) => false
         case DeleteRow(_) => false
         case BeginShutdown => false
         case ShutClose(_, _) => false
         case ReleaseRows => false
         case Deregister => false
         case Crash => false
         case _ => true
  }

  // --- reads are exact ---

  lemma LiveWorkersAre(g: Fleet, ws: seq<WorkerId>, deadline: int, cutoff: int)
    requires Steady(g, ws, deadline) && deadline <= cutoff <= g.now - WORKER_STALE
    ensures LiveWorkers(g.beats, cutoff) == Elems(ws) && |LiveWorkers(g.beats, cutoff)| == |ws|
  {
    NoDupSize(ws);
  }

  lemma OrphansAre(g: Fleet, ws: seq<WorkerId>, deadline: int, cutoff: int)
    requires Steady(g, ws, deadline) && deadline <= cutoff <= g.now - WORKER_STALE
    requires forall s :: IsAuthorized(g.rows, s) ==> g.rows[s].openable
    ensures Orphans(g.rows, g.beats, cutoff) == Unhosted(g.rows, ws)
  {
    LiveWorkersAre(g, ws, deadline, cutoff);
    forall s | s in g.rows && g.rows[s].status == Authorized && g.rows[s].owner.Some?
      ensures Alive(g.beats, g.rows[s].owner.value, cutoff) <==> g.rows[s].owner.value in ws
    {
      assert g.rows[s].owner.value in LiveWorkers(g.beats, cutoff) <==> g.rows[s].owner.value in Elems(ws);
    }
  }

  // --- what a step does to the loads ---

  // The same authorized sessions, with the same owners.
  predicate OwnersKept(rows: Rows, rows': Rows) {
    && rows.Keys == rows'.Keys
    && forall s :: s in rows ==>
         && rows'[s].owner == rows[s].owner && rows'[s].openable == rows[s].openable
         && (rows'[s].status == Authorized <==> rows[s].status == Authorized)
  }

  // One worker's share of the table is as it was.
  predicate SameFor(rows: Rows, rows': Rows, w: WorkerId) {
    && rows.Keys == rows'.Keys
    && forall s :: s in rows ==>
         && (rows'[s].owner == Some(w) <==> rows[s].owner == Some(w))
         && (rows'[s].status == Authorized <==> rows[s].status == Authorized)
  }

  lemma SameLoad(rows: Rows, rows': Rows, w: WorkerId)
    requires SameFor(rows, rows', w)
    ensures Owned(rows', w) == Owned(rows, w) && AllAuthorized(rows') == AllAuthorized(rows)
  {
  }

  lemma StaysInStep(rows: Rows, rows': Rows, ws: seq<WorkerId>, w: WorkerId, p: Proc)
    requires SameFor(rows, rows', w) && InStep(rows, ws, w, p)
    ensures InStep(rows', ws, w, p)
  {
    SameLoad(rows, rows', w);
  }

  lemma {:induction false} SameExcess(rows: Rows, rows': Rows, ws: seq<WorkerId>, share: nat)
    requires forall w :: w in ws ==> Load(rows', w) == Load(rows, w)
    ensures Excess(rows', ws, share) == Excess(rows, ws, share)
  {
    if ws != [] {
      SameExcess(rows, rows', ws[1..], share);
    }
  }

  // Only w's load changed, so only w's excess did.
  lemma {:induction false} ExcessMoves(rows: Rows, rows': Rows, ws: seq<WorkerId>, w: WorkerId, share: nat)
    requires NoDup(ws) && w in ws
    requires forall v :: v in ws && v != w ==> Load(rows', v) == Load(rows, v)
    ensures Excess(rows', ws, share) - Max(Load(rows', w) - share, 0)
            == Excess(rows, ws, share) - Max(Load(rows, w) - share, 0)
  {
    if ws[0] == w {
      SameExcess(rows, rows', ws[1..], share);
    } else {
      ExcessMoves(rows, rows', ws[1..], w, share);
    }
  }

  // --- the three kinds of steps ---

  predicate Moves(step: Step) {
    step.ReleaseNext? || step.Claim?
  }

  lemma ExpireKeeps(rows: Rows, beats: Beats, cutoff: int, now: int)
    ensures OwnersKept(rows, ExpireStale(rows, beats, cutoff, now))
  {
  }

  lemma OpenedKeeps(rows: Rows, s: SessionId, now: int)
    requires IsAuthorized(rows, s)
    ensures OwnersKept(rows, WithStatus(rows, s, Authorized, now))
  {
  }

  // A calm worker opens what it owns, and has nothing to fence.
  lemma OpensOwn(g: Fleet, ws: seq<WorkerId>, w: WorkerId, step: Step)
    requires Calm(g, ws) && w in ws && Opening(g.procs[w], step, g.now).Some?
    ensures var s := Opening(g.procs[w], step, g.now).value.0; IsAuthorized(g.rows, s) && OwnedBy(g.rows, s, w)
  {
    assert InStep(g.rows, ws, w, g.procs[w]);
    assert Opening(g.procs[w], step, g.now).value.0 in Elems(Outstanding(g.procs[w].todo));
  }

  lemma NothingToFence(g: Fleet, ws: seq<WorkerId>, w: WorkerId)
    requires Calm(g, ws) && w in ws && g.procs[w].todo.Fencing?
    ensures g.procs[w].todo.foreign == []
  {
    assert InStep(g.rows, ws, w, g.procs[w]);
  }

  // The rows after a step that moves nothing, in three cases.
  lemma QuietRowsAre(g: Fleet, ws: seq<WorkerId>, w: WorkerId, step: Step)
    requires w in g.procs && Enabled(g, By(w, step)) && Reconciles(g, ws, By(w, step)) && !Moves(step)
    requires g.procs[w].todo.Fencing? ==> g.procs[w].todo.foreign == []
    ensures RowsAfter(g, w, step) ==
              if step.ExpireLogins? then ExpireStale(g.rows, g.beats, g.procs[w].cutoff, g.now)
              else if Opening(g.procs[w], step, g.now).Some?
              then WithStatus(g.rows, Opening(g.procs[w], step, g.now).value.0, Authorized, g.now)
              else g.rows
  {
    hide ExpireStale, WithStatus, CanOpen, MayShed, MayClaim, Lists, Unused;
  }

  lemma QuietRows(g: Fleet, ws: seq<WorkerId>, w: WorkerId, step: Step)
    requires Calm(g, ws) && Enabled(g, By(w, step)) && Reconciles(g, ws, By(w, step)) && !Moves(step)
    ensures OwnersKept(g.rows, RowsAfter(g, w, step))
  {
    assert w in ws && w in g.procs;
    hide Calm, Allowed, Reconciles, RowsAfter, OwnersKept, ExpireStale, WithStatus, Opening;
    if g.procs[w].todo.Fencing? {
      NothingToFence(g, ws, w);
    }
    QuietRowsAre(g, ws, w, step);
    if step.ExpireLogins? {
      ExpireKeeps(g.rows, g.beats, g.procs[w].cutoff, g.now);
    } else if Opening(g.procs[w], step, g.now).Some? {
      OpensOwn(g, ws, w, step);
      OpenedKeeps(g.rows, Opening(g.procs[w], step, g.now).value.0, g.now);
    } else {
      SameOwners(g.rows);
    }
  }

  lemma SameOwners(rows: Rows)
    ensures OwnersKept(rows, rows)
  {
  }

  lemma OpenedLiveInStep(rows: Rows, w: WorkerId, live: map<SessionId, Entry>, s: SessionId)
    requires HeldByOwner(rows, w, live) && s in Owned(rows, w)
    ensures HeldByOwner(rows, w, live[s := Ready])
  {
  }

  lemma QuietLive(g: Fleet, ws: seq<WorkerId>, w: WorkerId, step: Step)
    requires Calm(g, ws) && Enabled(g, By(w, step)) && Reconciles(g, ws, By(w, step))
    ensures HeldByOwner(g.rows, w, LiveAfter(g, g.procs[w], step))
  {
    var p := g.procs[w];
    assert InStep(g.rows, ws, w, p);
    if Opening(p, step, g.now).Some? {
      var s := Opening(p, step, g.now).value.0;
      assert s in Elems(Outstanding(p.todo));
      OpenedLiveInStep(g.rows, w, p.live, s);
    }
  }

  lemma TailElems(ids: seq<SessionId>)
    requires ids != [] && NoDup(ids)
    ensures NoDup(ids[1..]) && Elems(ids[1..]) <= Elems(ids) && ids[0] in Elems(ids) && ids[0] !in Elems(ids[1..])
  {
  }

  // A pass that reads or acts locally stays in step with the registry. Calm
  // fleets have nothing to fence.
  lemma QuietPlan(g: Fleet, ws: seq<WorkerId>, deadline: int, w: WorkerId, step: Step)
    requires Steady(g, ws, deadline) && Calm(g, ws)
    requires Enabled(g, By(w, step)) && Reconciles(g, ws, By(w, step)) && !Moves(step)
    ensures PlanInStep(g.rows, ws, w, Perform(g, w, step).procs[w])
  {
    var p := g.procs[w];
    assert InStep(g.rows, ws, w, p);
    if step.CloseNext? {
      ClosedPlan(g, ws, w);
    } else if step.DropNext? {
      DroppedPlan(g, ws, w);
    } else if step.HydrateNext? {
      TailElems(p.todo.claimed);
    } else if step.ReadLoad? {
      LiveWorkersAre(g, ws, deadline, p.cutoff);
    } else {
      LocalPlan(g, ws, w, step);
    }
  }

  lemma LocalPlan(g: Fleet, ws: seq<WorkerId>, w: WorkerId, step: Step)
    requires Calm(g, ws) && Enabled(g, By(w, step)) && Reconciles(g, ws, By(w, step)) && !Moves(step)
    requires !step.CloseNext? && !step.DropNext? && !step.HydrateNext? && !step.ReadLoad?
    ensures PlanInStep(g.rows, ws, w, Perform(g, w, step).procs[w])
  {
    var p := g.procs[w];
    assert InStep(g.rows, ws, w, p);
    if step.QueryForeign? {
      assert Elems(step.foreign) == {};
      NoElems(step.foreign);
    }
  }

  lemma ClosedPlan(g: Fleet, ws: seq<WorkerId>, w: WorkerId)
    requires Calm(g, ws) && w in ws && Enabled(g, By(w, CloseNext(true)))
    ensures PlanInStep(g.rows, ws, w, Perform(g, w, CloseNext(true)).procs[w])
  {
    var p := g.procs[w];
    assert InStep(g.rows, ws, w, p);
    var ids := p.todo.victims;
    TailElems(ids);
    assert [ids[0]] + ids[1..] == ids;
    assert ids[0] in UsableSessions(p);
  }

  lemma DroppedPlan(g: Fleet, ws: seq<WorkerId>, w: WorkerId)
    requires Calm(g, ws) && w in ws && Enabled(g, By(w, DropNext))
    ensures PlanInStep(g.rows, ws, w, Perform(g, w, DropNext).procs[w])
  {
    hide RowsAfter, BeatsAfter, RetryAfter, LocksAfter;
    var p := g.procs[w];
    assert InStep(g.rows, ws, w, p);
    var id, rest := p.todo.closing, p.todo.after;
    TailElems([id] + rest);
    assert ([id] + rest)[1..] == rest;
  }

  lemma ReleaseLoads(rows: Rows, ws: seq<WorkerId>, w: WorkerId, s: SessionId, now: int)
    requires s in Owned(rows, w) && w in ws
    ensures var rows' := WithOwner(rows, s, None, now);
      && Load(rows', w) == Load(rows, w) - 1
      && (forall v :: v != w ==> SameFor(rows, rows', v))
      && AllAuthorized(rows') == AllAuthorized(rows)
      && |Unhosted(rows', ws)| == |Unhosted(rows, ws)| + 1
  {
    var rows' := WithOwner(rows, s, None, now);
    assert Owned(rows', w) == Owned(rows, w) - {s};
    assert Unhosted(rows', ws) == Unhosted(rows, ws) + {s};
  }

  lemma ClaimLoads(rows: Rows, ws: seq<WorkerId>, w: WorkerId, ids: seq<SessionId>, now: int)
    requires NoDup(ids) && Elems(ids) <= Unhosted(rows, ws) && w in ws
    ensures var rows' := Assign(rows, Elems(ids), w, now);
      && Load(rows', w) == Load(rows, w) + |ids|
      && (forall v :: v in ws && v != w ==> SameFor(rows, rows', v))
      && AllAuthorized(rows') == AllAuthorized(rows)
      && |Unhosted(rows', ws)| == |Unhosted(rows, ws)| - |ids|
      && Elems(ids) <= Owned(rows', w)
  {
    NoDupSize(ids);
    ClaimGains(rows, ws, w, Elems(ids), now);
    ClaimLeaves(rows, ws, w, Elems(ids), now);
  }

  lemma ClaimGains(rows: Rows, ws: seq<WorkerId>, w: WorkerId, ids: set<SessionId>, now: int)
    requires ids <= Unhosted(rows, ws) && w in ws
    ensures Owned(Assign(rows, ids, w, now), w) == Owned(rows, w) + ids
    ensures |Owned(Assign(rows, ids, w, now), w)| == |Owned(rows, w)| + |ids|
  {
    assert Owned(rows, w) !! ids;
  }

  lemma ClaimLeaves(rows: Rows, ws: seq<WorkerId>, w: WorkerId, ids: set<SessionId>, now: int)
    requires ids <= Unhosted(rows, ws) && w in ws
    ensures Unhosted(Assign(rows, ids, w, now), ws) == Unhosted(rows, ws) - ids
    ensures AllAuthorized(Assign(rows, ids, w, now)) == AllAuthorized(rows)
    ensures forall v :: v in ws && v != w ==> SameFor(rows, Assign(rows, ids, w, now), v)
  {
  }

  // --- every shed and every claim lowers the measure ---

  // How many sessions a step moves: one released, or a batch claimed.
  function Moved(step: Step): nat {
    match step
    case ReleaseNext => 1
    case Claim(ids) => |ids|
    case _ => 0
  }

  // Releasing never takes a worker below its share.
  lemma ReleaseStep(g: Fleet, ws: seq<WorkerId>, w: WorkerId)
    requires Calm(g, ws) && NoDup(ws) && w in ws && Enabled(g, By(w, ReleaseNext))
    ensures var g' := Perform(g, w, ReleaseNext);
      && Calm(g', ws) && AllAuthorized(g'.rows) == AllAuthorized(g.rows)
      && Load(g'.rows, w) >= FairShare(g.rows, ws)
      && Measure(g'.rows, ws) + 1 == Measure(g.rows, ws)
  {
    var p, g', share := g.procs[w], Perform(g, w, ReleaseNext), FairShare(g.rows, ws);
    assert InStep(g.rows, ws, w, p);
    var s := p.todo.closed;
    ReleaseLoads(g.rows, ws, w, s, g.now);
    forall v | v in ws && v != w
      ensures Load(g'.rows, v) == Load(g.rows, v) && InStep(g'.rows, ws, v, g'.procs[v])
    {
      SameLoad(g.rows, g'.rows, v);
      StaysInStep(g.rows, g'.rows, ws, v, g.procs[v]);
    }
    ExcessMoves(g.rows, g'.rows, ws, w, share);
    ReleasedInStep(g, ws, w);
  }

  lemma ReleasedInStep(g: Fleet, ws: seq<WorkerId>, w: WorkerId)
    requires Calm(g, ws) && w in ws && Enabled(g, By(w, ReleaseNext))
    ensures var g' := Perform(g, w, ReleaseNext); InStep(g'.rows, ws, w, g'.procs[w])
  {
    var p := g.procs[w];
    assert InStep(g.rows, ws, w, p);
    ReleaseLoads(g.rows, ws, w, p.todo.closed, g.now);
    TailElems([p.todo.closed] + p.todo.rest);
    assert ([p.todo.closed] + p.todo.rest)[1..] == p.todo.rest;
  }

  // Claiming never takes a worker above its share.
  lemma ClaimStep(g: Fleet, ws: seq<WorkerId>, deadline: int, w: WorkerId, ids: seq<SessionId>)
    requires Steady(g, ws, deadline) && Calm(g, ws) && w in ws && Enabled(g, By(w, Claim(ids)))
    ensures var g' := Perform(g, w, Claim(ids));
      && Calm(g', ws) && AllAuthorized(g'.rows) == AllAuthorized(g.rows)
      && Load(g'.rows, w) <= FairShare(g.rows, ws)
      && Measure(g'.rows, ws) + |ids| == Measure(g.rows, ws)
  {
    ClaimIsOrphans(g, ws, deadline, w, ids);
    ClaimRows(g.rows, ws, w, ids, g.now);
    ClaimCalm(g, ws, w, ids);
  }

  lemma ClaimIsOrphans(g: Fleet, ws: seq<WorkerId>, deadline: int, w: WorkerId, ids: seq<SessionId>)
    requires Steady(g, ws, deadline) && Calm(g, ws) && w in ws && Enabled(g, By(w, Claim(ids)))
    ensures NoDup(ids) && Elems(ids) <= Unhosted(g.rows, ws)
    ensures |ids| <= FairShare(g.rows, ws) - Load(g.rows, w)
  {
    assert InStep(g.rows, ws, w, g.procs[w]);
    OrphansAre(g, ws, deadline, g.procs[w].cutoff);
  }

  lemma ClaimRows(rows: Rows, ws: seq<WorkerId>, w: WorkerId, ids: seq<SessionId>, now: int)
    requires NoDup(ws) && w in ws && NoDup(ids) && Elems(ids) <= Unhosted(rows, ws)
    requires |ids| <= FairShare(rows, ws) - Load(rows, w)
    ensures var rows' := Assign(rows, Elems(ids), w, now);
      && AllAuthorized(rows') == AllAuthorized(rows) && Load(rows', w) <= FairShare(rows, ws)
      && Measure(rows', ws) + |ids| == Measure(rows, ws)
  {
    var rows', share := Assign(rows, Elems(ids), w, now), FairShare(rows, ws);
    ClaimLoads(rows, ws, w, ids, now);
    forall v | v in ws && v != w
      ensures Load(rows', v) == Load(rows, v)
    {
      SameLoad(rows, rows', v);
    }
    ExcessMoves(rows, rows', ws, w, share);
  }

  lemma ClaimCalm(g: Fleet, ws: seq<WorkerId>, w: WorkerId, ids: seq<SessionId>)
    requires Calm(g, ws) && w in ws && Enabled(g, By(w, Claim(ids)))
    requires NoDup(ids) && Elems(ids) <= Unhosted(g.rows, ws)
    ensures Calm(Perform(g, w, Claim(ids)), ws)
  {
    var p, g' := g.procs[w], Perform(g, w, Claim(ids));
    assert InStep(g.rows, ws, w, p);
    ClaimLoads(g.rows, ws, w, ids, g.now);
    OthersInStep(g, ws, w, g'.rows);
    ClaimedHeld(g.rows, ws, w, p.live, ids, g.now);
  }

  lemma OthersInStep(g: Fleet, ws: seq<WorkerId>, w: WorkerId, rows: Rows)
    requires Calm(g, ws) && forall v :: v in ws && v != w ==> SameFor(g.rows, rows, v)
    ensures forall v :: v in ws && v != w ==> Load(rows, v) == Load(g.rows, v) && InStep(rows, ws, v, g.procs[v])
  {
    hide InStep, SameFor;
    forall v | v in ws && v != w
      ensures Load(rows, v) == Load(g.rows, v) && InStep(rows, ws, v, g.procs[v])
    {
      SameLoad(g.rows, rows, v);
      StaysInStep(g.rows, rows, ws, v, g.procs[v]);
    }
  }

  lemma ClaimedHeld(rows: Rows, ws: seq<WorkerId>, w: WorkerId, live: map<SessionId, Entry>, ids: seq<SessionId>, now: int)
    requires HeldByOwner(rows, w, live) && Elems(ids) <= Unhosted(rows, ws) && w in ws
    ensures HeldByOwner(Assign(rows, Elems(ids), w, now), w, live) && Elems(ids) !! live.Keys
  {
  }

  lemma QuietStep(g: Fleet, ws: seq<WorkerId>, deadline: int, w: WorkerId, step: Step)
    requires Steady(g, ws, deadline) && Calm(g, ws)
    requires Enabled(g, By(w, step)) && Reconciles(g, ws, By(w, step)) && !Moves(step)
    ensures var g' := Perform(g, w, step);
      && Calm(g', ws) && AllAuthorized(g'.rows) == AllAuthorized(g.rows) && Measure(g'.rows, ws) == Measure(g.rows, ws)
  {
    var g' := Perform(g, w, step);
    QuietRows(g, ws, w, step);
    QuietLive(g, ws, w, step);
    QuietPlan(g, ws, deadline, w, step);
    forall v | v in ws
      ensures Load(g'.rows, v) == Load(g.rows, v) && InStep(g'.rows, ws, v, g'.procs[v])
    {
      SameLoad(g.rows, g'.rows, v);
      StaysInStep(g.rows, g'.rows, ws, v, g'.procs[v]);
    }
    SameExcess(g.rows, g'.rows, ws, FairShare(g.rows, ws));
    assert Unhosted(g'.rows, ws) == Unhosted(g.rows, ws);
    assert AllAuthorized(g'.rows) == AllAuthorized(g.rows);
  }

  lemma CalmTick(g: Fleet, ws: seq<WorkerId>, elapsed: nat)
    requires Calm(g, ws)
    ensures Calm(g.(now := g.now + elapsed), ws)
  {
  }

  lemma CalmStep(g: Fleet, ws: seq<WorkerId>, deadline: int, a: Action)
    requires Steady(g, ws, deadline) && Calm(g, ws) && Enabled(g, a) && Reconciles(g, ws, a)
    ensures Calm(Apply(g, a), ws) && AllAuthorized(Apply(g, a).rows) == AllAuthorized(g.rows)
    ensures Measure(Apply(g, a).rows, ws) + (if a.By? then Moved(a.step) else 0) == Measure(g.rows, ws)
  {
    assert NoDup(ws) && (a.By? ==> a.w in ws);
    hide Calm, Steady, Reconciles, Allowed, Perform, AllAuthorized, Measure, FairShare, Load;
    if a.Tick? {
      CalmTick(g, ws, a.elapsed);
    } else if a.step.ReleaseNext? {
      ReleaseStep(g, ws, a.w);
    } else if a.step.Claim? {
      ClaimStep(g, ws, deadline, a.w, a.step.claimed);
    } else {
      QuietStep(g, ws, deadline, a.w, a.step);
    }
  }

  // --- runs ---

  ghost predicate CalmRun(g: Fleet, run: seq<Action>, ws: seq<WorkerId>, deadline: int)
    decreases |run|
  {
    && Steady(g, ws, deadline)
    && (run != [] ==>
          && Enabled(g, run[0]) && Reconciles(g, ws, run[0])
          && CalmRun(Apply(g, run[0]), run[1..], ws, deadline))
  }

  lemma {:induction false} CalmRunIsRun(g: Fleet, run: seq<Action>, ws: seq<WorkerId>, deadline: int)
    requires CalmRun(g, run, ws, deadline)
    ensures IsRun(g, run)
    decreases |run|
  {
    if run != [] {
      CalmRunIsRun(Apply(g, run[0]), run[1..], ws, deadline);
    }
  }

  function TotalMoved(run: seq<Action>): nat {
    if run == [] then 0 else (if run[0].By? then Moved(run[0].step) else 0) + TotalMoved(run[1..])
  }

  // Rebalancing is bounded: over any interleaving, the sessions released and
  // claimed are exactly what the measure lost, so no run moves more of them than
  // the measure it started with.
  lemma {:induction false} RunLowersMeasure(g: Fleet, run: seq<Action>, ws: seq<WorkerId>, deadline: int)
    requires CalmRun(g, run, ws, deadline) && Calm(g, ws)
    ensures IsRun(g, run) && Calm(After(g, run), ws)
    ensures Measure(After(g, run).rows, ws) + TotalMoved(run) == Measure(g.rows, ws)
    ensures AllAuthorized(After(g, run).rows) == AllAuthorized(g.rows)
    decreases |run|
  {
    CalmRunIsRun(g, run, ws, deadline);
    if run != [] {
      CalmStep(g, ws, deadline, run[0]);
      RunLowersMeasure(Apply(g, run[0]), run[1..], ws, deadline);
    }
  }

  // --- the fixpoint ---

  // What a pass of w, begun now, would find to do.
  ghost predicate CanAct(g: Fleet, ws: seq<WorkerId>, w: WorkerId)
    requires w in g.procs
  {
    var p, load, share := g.procs[w], Load(g.rows, w), FairShare(g.rows, ws);
    || (exists s :: s in Adoptable(g.rows, w) && s !in p.live)
    || (load > share && UsableSessions(p) != {})
    || (load < share && |p.live| < p.capacity && Unhosted(g.rows, ws) != {})
  }

  function SumLoads(rows: Rows, ws: seq<WorkerId>): nat {
    if ws == [] then 0 else Load(rows, ws[0]) + SumLoads(rows, ws[1..])
  }

  // Every authorized session is owned by exactly one of the workers, or unhosted.
  lemma {:induction false} LoadsPartition(rows: Rows, ws: seq<WorkerId>)
    requires NoDup(ws)
    ensures SumLoads(rows, ws) + |Unhosted(rows, ws)| == |AllAuthorized(rows)|
  {
    if ws == [] {
      assert Unhosted(rows, ws) == AllAuthorized(rows);
    } else {
      LoadsPartition(rows, ws[1..]);
      assert Unhosted(rows, ws[1..]) == Unhosted(rows, ws) + Owned(rows, ws[0]);
    }
  }

  lemma {:induction false} SumAtLeast(rows: Rows, ws: seq<WorkerId>, share: nat)
    requires forall w :: w in ws ==> Load(rows, w) >= share
    ensures SumLoads(rows, ws) >= |ws| * share
  {
    if ws != [] {
      SumAtLeast(rows, ws[1..], share);
      assert |ws| * share == share + |ws[1..]| * share;
    }
  }

  lemma ShareCovers(total: nat, n: nat)
    requires n >= 1
    ensures n * Share(total, n) >= total
  {
    var q := (total + n - 1) / n;
    assert total + n - 1 == n * q + (total + n - 1) % n;
  }

  lemma {:induction false} NoExcess(rows: Rows, ws: seq<WorkerId>, share: nat)
    ensures Excess(rows, ws, share) == 0 <==> forall w :: w in ws ==> Load(rows, w) <= share
  {
    if ws != [] {
      NoExcess(rows, ws[1..], share);
    }
  }

  // The measure is zero exactly when the fleet is balanced.
  lemma MeasureZero(rows: Rows, ws: seq<WorkerId>)
    ensures Measure(rows, ws) == 0
       <==> Unhosted(rows, ws) == {} && forall w :: w in ws ==> Load(rows, w) <= FairShare(rows, ws)
  {
    NoExcess(rows, ws, FairShare(rows, ws));
  }

  lemma OverloadedCanAct(g: Fleet, ws: seq<WorkerId>, w: WorkerId)
    requires Calm(g, ws) && w in ws && Load(g.rows, w) > FairShare(g.rows, ws)
    ensures CanAct(g, ws, w)
  {
    var s :| s in Owned(g.rows, w);
    assert IsAuthorized(g.rows, s) && s in Adoptable(g.rows, w);
    if s in g.procs[w].live {
      assert s in UsableSessions(g.procs[w]);
    }
  }

  // A calm fleet whose capacity does not bind, and in which no worker can act, is
  // balanced: nothing is unhosted and nobody is above the fair share.
  lemma StuckIsBalanced(g: Fleet, ws: seq<WorkerId>)
    requires ws != [] && NoDup(ws) && Calm(g, ws)
    requires forall w :: w in ws && Load(g.rows, w) < FairShare(g.rows, ws) ==> |g.procs[w].live| < g.procs[w].capacity
    requires forall w :: w in ws ==> !CanAct(g, ws, w)
    ensures Measure(g.rows, ws) == 0
    ensures Unhosted(g.rows, ws) == {}
    ensures forall w :: w in ws ==> Load(g.rows, w) <= FairShare(g.rows, ws)
  {
    var share := FairShare(g.rows, ws);
    forall w | w in ws
      ensures Load(g.rows, w) <= share
    {
      if Load(g.rows, w) > share {
        OverloadedCanAct(g, ws, w);
      }
    }
    if Unhosted(g.rows, ws) != {} {
      LoadsPartition(g.rows, ws);
      SumAtLeast(g.rows, ws, share);
      ShareCovers(|AllAuthorized(g.rows)|, |ws|);
    }
    MeasureZero(g.rows, ws);
  }

  // And a balanced fleet stays as it is: no reconcile step releases or claims.
  lemma BalancedIsStable(g: Fleet, run: seq<Action>, ws: seq<WorkerId>, deadline: int)
    requires CalmRun(g, run, ws, deadline) && Calm(g, ws) && Measure(g.rows, ws) == 0
    ensures TotalMoved(run) == 0 && IsRun(g, run) && Measure(After(g, run).rows, ws) == 0
  {
    RunLowersMeasure(g, run, ws, deadline);
  }
}
