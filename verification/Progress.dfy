/** Rebalancing gets on: in a steady and calm fleet that is not balanced, some
    worker's next pass releases or claims a session. */
module Progress {
  import opened Common
  import opened Registry
  import opened Fleet
  import opened Rebalance

  // --- picking ---

  lemma {:induction false} Pick(s: set<SessionId>, n: nat) returns (ids: seq<SessionId>)
    requires n <= |s|
    ensures NoDup(ids) && Elems(ids) <= s && |ids| == n
  {
    if n == 0 {
      ids := [];
    } else {
      var x :| x in s;
      var rest := Pick(s - {x}, n - 1);
      ids := [x] + rest;
    }
  }

  lemma {:induction false} Oldest(rows: Rows, s: set<SessionId>) returns (x: SessionId)
    requires s != {} && s <= rows.Keys
    ensures x in s && forall y :: y in s ==> rows[x].updatedAt <= rows[y].updatedAt
  {
    x :| x in s;
    if s != {x} {
      var y := Oldest(rows, s - {x});
      if rows[y].updatedAt < rows[x].updatedAt {
        x := y;
      }
    }
  }

  // There is always a batch to claim: the n oldest.
  lemma {:induction false} PickOldest(rows: Rows, s: set<SessionId>, n: nat) returns (ids: seq<SessionId>)
    requires n <= |s| && s <= rows.Keys
    ensures NoDup(ids) && Elems(ids) <= s && |ids| == n
    ensures forall x, y :: x in Elems(ids) && y in s - Elems(ids) ==> rows[x].updatedAt <= rows[y].updatedAt
  {
    if n == 0 {
      ids := [];
    } else {
      var x := Oldest(rows, s);
      var rest := PickOldest(rows, s - {x}, n - 1);
      ids := [x] + rest;
      assert Elems(ids) == {x} + Elems(rest);
    }
  }

  // --- one step of a calm run ---

  predicate Quiet(step: Step) {
    !step.Heartbeat? && !step.PurgeWorkers? && !Moves(step)
  }

  lemma SteadyOn(g: Fleet, ws: seq<WorkerId>, deadline: int, w: WorkerId, step: Step)
    requires Steady(g, ws, deadline) && Enabled(g, By(w, step)) && Reconciles(g, ws, By(w, step))
    requires !step.Heartbeat? && !step.PurgeWorkers?
    ensures Steady(Perform(g, w, step), ws, deadline)
  {
    hide RowsAfter, LiveAfter, RetryAfter, LocksAfter, ExitAfter;
  }

  lemma Prepend(g: Fleet, ws: seq<WorkerId>, deadline: int, w: WorkerId, step: Step, rest: seq<Action>)
    requires Steady(g, ws, deadline) && Enabled(g, By(w, step)) && Reconciles(g, ws, By(w, step))
    requires CalmRun(Perform(g, w, step), rest, ws, deadline)
    ensures CalmRun(g, [By(w, step)] + rest, ws, deadline)
    ensures TotalMoved([By(w, step)] + rest) == Moved(step) + TotalMoved(rest)
  {
    hide Steady, Allowed, Perform, Reconciles;
    assert ([By(w, step)] + rest)[1..] == rest;
  }

  // What w is behind with: it has too much, or too little while there is more to
  // have and room for it.
  ghost predicate Wanting(rows: Rows, ws: seq<WorkerId>, w: WorkerId, held: set<SessionId>, capacity: nat) {
    || Load(rows, w) > FairShare(rows, ws)
    || (Load(rows, w) < FairShare(rows, ws) && Unhosted(rows, ws) != {} && |held + Owned(rows, w)| < capacity)
  }

  lemma StillWanting(rows: Rows, rows': Rows, ws: seq<WorkerId>, w: WorkerId, held: set<SessionId>, held': set<SessionId>,
                     capacity: nat)
    requires OwnersKept(rows, rows') && Wanting(rows, ws, w, held, capacity)
    requires held' + Owned(rows, w) == held + Owned(rows, w)
    ensures Wanting(rows', ws, w, held', capacity) && Owned(rows', w) == Owned(rows, w)
    ensures FairShare(rows', ws) == FairShare(rows, ws) && Load(rows', w) == Load(rows, w)
  {
    SameLoad(rows, rows', w);
    assert Unhosted(rows', ws) == Unhosted(rows, ws);
  }

  // --- the moves a pass ends in ---

  ghost predicate AtLoad(g: Fleet, ws: seq<WorkerId>, deadline: int, w: WorkerId) {
    && Steady(g, ws, deadline) && Calm(g, ws) && w in ws && w in g.procs
    && g.procs[w].todo.Loaded? && Owned(g.rows, w) <= g.procs[w].live.Keys
    && Wanting(g.rows, ws, w, g.procs[w].live.Keys, g.procs[w].capacity)
  }

  lemma Claims(g: Fleet, ws: seq<WorkerId>, deadline: int, w: WorkerId) returns (run: seq<Action>)
    requires AtLoad(g, ws, deadline, w) && Load(g.rows, w) < FairShare(g.rows, ws)
    ensures CalmRun(g, run, ws, deadline) && TotalMoved(run) > 0
    ensures forall a :: a in run ==> a.By? && a.w == w
  {
    var ids := Batch(g, ws, deadline, w);
    hide AtLoad, Allowed, Perform, Steady;
    SteadyOn(g, ws, deadline, w, Claim(ids));
    NoMore(Perform(g, w, Claim(ids)), ws, deadline);
    hide CalmRun;
    Prepend(g, ws, deadline, w, Claim(ids), []);
    run := [By(w, Claim(ids))] + [];
  }

  lemma Batch(g: Fleet, ws: seq<WorkerId>, deadline: int, w: WorkerId) returns (ids: seq<SessionId>)
    requires AtLoad(g, ws, deadline, w) && Load(g.rows, w) < FairShare(g.rows, ws)
    ensures ids != [] && w in g.procs && w in ws && Enabled(g, By(w, Claim(ids))) && Steady(g, ws, deadline)
  {
    var p := g.procs[w];
    assert InStep(g.rows, ws, w, p);
    OrphansAre(g, ws, deadline, p.cutoff);
    var orphans := Orphans(g.rows, g.beats, p.cutoff);
    assert p.live.Keys + Owned(g.rows, w) == p.live.Keys;
    assert ClaimLimit(p) > 0;
    hide Steady, Calm, Orphans, Unhosted, NoDup;
    ids := PickOldest(g.rows, orphans, Min(ClaimLimit(p), |orphans|));
    assert IsClaim(g.rows, g.beats, p.cutoff, ClaimLimit(p), ids);
  }

  lemma Sheds(g: Fleet, ws: seq<WorkerId>, deadline: int, w: WorkerId) returns (run: seq<Action>)
    requires AtLoad(g, ws, deadline, w) && Load(g.rows, w) > FairShare(g.rows, ws)
    ensures CalmRun(g, run, ws, deadline) && TotalMoved(run) > 0
    ensures forall a :: a in run ==> a.By? && a.w == w
  {
    var ids := Victims(g, ws, w);
    SteadyOn(g, ws, deadline, w, StartShed(ids));
    CalmStep(g, ws, deadline, By(w, StartShed(ids)));
    var g1 := Perform(g, w, StartShed(ids));
    assert g1.procs[w].todo == Shedding(ids);
    var rest := ShedsOne(g1, ws, deadline, w);
    hide Allowed, Perform, Steady, CalmRun;
    Prepend(g, ws, deadline, w, StartShed(ids), rest);
    run := [By(w, StartShed(ids))] + rest;
  }

  lemma Victims(g: Fleet, ws: seq<WorkerId>, w: WorkerId) returns (ids: seq<SessionId>)
    requires Calm(g, ws) && w in ws && w in g.procs && g.procs[w].todo.Loaded?
    requires Owned(g.rows, w) <= g.procs[w].live.Keys && Load(g.rows, w) > FairShare(g.rows, ws)
    ensures ids != [] && Enabled(g, By(w, StartShed(ids)))
  {
    var p := g.procs[w];
    assert InStep(g.rows, ws, w, p);
    var s :| s in Owned(g.rows, w);
    assert s in UsableSessions(p);
    var n := Min(Min(p.todo.mine - Share(p.todo.total, p.todo.alive), SHED_PER_TICK), |UsableSessions(p)|);
    assert n > 0;
    ids := Pick(UsableSessions(p), n);
  }

  lemma NoMore(g: Fleet, ws: seq<WorkerId>, deadline: int)
    requires Steady(g, ws, deadline)
    ensures CalmRun(g, [], ws, deadline)
  {
  }

  // Closing, dropping and releasing the first of its victims.
  lemma ShedsOne(g: Fleet, ws: seq<WorkerId>, deadline: int, w: WorkerId) returns (run: seq<Action>)
    requires Steady(g, ws, deadline) && w in ws && w in g.procs
    requires g.procs[w].todo.Shedding? && g.procs[w].todo.victims != []
    ensures CalmRun(g, run, ws, deadline) && TotalMoved(run) > 0
    ensures forall a :: a in run ==> a.By? && a.w == w
  {
    hide RowsAfter, BeatsAfter, LiveAfter, RetryAfter, LocksAfter, ExitAfter;
    SteadyOn(g, ws, deadline, w, CloseNext(true));
    var rest := Drops(Perform(g, w, CloseNext(true)), ws, deadline, w);
    hide Steady, Perform, CalmRun;
    Prepend(g, ws, deadline, w, CloseNext(true), rest);
    run := [By(w, CloseNext(true))] + rest;
  }

  lemma Drops(g: Fleet, ws: seq<WorkerId>, deadline: int, w: WorkerId) returns (run: seq<Action>)
    requires Steady(g, ws, deadline) && w in ws && w in g.procs && g.procs[w].todo.Dropping?
    ensures CalmRun(g, run, ws, deadline) && TotalMoved(run) > 0
    ensures forall a :: a in run ==> a.By? && a.w == w
  {
    hide RowsAfter, BeatsAfter, LiveAfter, RetryAfter, LocksAfter, ExitAfter;
    SteadyOn(g, ws, deadline, w, DropNext);
    var rest := Releases(Perform(g, w, DropNext), ws, deadline, w);
    hide Steady, Perform, CalmRun;
    Prepend(g, ws, deadline, w, DropNext, rest);
    run := [By(w, DropNext)] + rest;
  }

  lemma Releases(g: Fleet, ws: seq<WorkerId>, deadline: int, w: WorkerId) returns (run: seq<Action>)
    requires Steady(g, ws, deadline) && w in ws && w in g.procs && g.procs[w].todo.Releasing?
    ensures CalmRun(g, run, ws, deadline) && TotalMoved(run) > 0
    ensures forall a :: a in run ==> a.By? && a.w == w
  {
    SteadyOn(g, ws, deadline, w, ReleaseNext);
    NoMore(Perform(g, w, ReleaseNext), ws, deadline);
    hide Steady, Perform, CalmRun;
    Prepend(g, ws, deadline, w, ReleaseNext, []);
    run := [By(w, ReleaseNext)] + [];
  }

  // --- the way there ---

  // w has ids left to adopt, can open what it does not hold, and is behind.
  ghost predicate Ahead(g: Fleet, ws: seq<WorkerId>, deadline: int, w: WorkerId, ids: seq<SessionId>) {
    && Steady(g, ws, deadline) && Calm(g, ws) && w in ws && w in g.procs
    && g.procs[w].todo == Adopting(ids) && NoDup(ids) && g.procs[w].retry == map[]
    && (forall s :: s in Owned(g.rows, w) ==> s in g.procs[w].live || s in ids)
    && (forall s :: s in ids ==> s in g.procs[w].live || s !in g.locks)
    && Wanting(g.rows, ws, w, g.procs[w].live.Keys, g.procs[w].capacity)
  }

  lemma LoadsAndMoves(g: Fleet, ws: seq<WorkerId>, deadline: int, w: WorkerId) returns (run: seq<Action>)
    requires Ahead(g, ws, deadline, w, [])
    ensures CalmRun(g, run, ws, deadline) && TotalMoved(run) > 0
    ensures forall a :: a in run ==> a.By? && a.w == w
  {
    SteadyOn(g, ws, deadline, w, ReadLoad);
    CalmStep(g, ws, deadline, By(w, ReadLoad));
    var g1 := Perform(g, w, ReadLoad);
    assert g1.rows == g.rows && g1.procs[w].live == g.procs[w].live && g1.procs[w].capacity == g.procs[w].capacity;
    assert Owned(g.rows, w) <= g.procs[w].live.Keys;
    assert AtLoad(g1, ws, deadline, w);
    hide Steady, Calm, Perform, CalmRun;
    var rest;
    if Load(g1.rows, w) > FairShare(g1.rows, ws) {
      rest := Sheds(g1, ws, deadline, w);
    } else {
      rest := Claims(g1, ws, deadline, w);
    }
    Prepend(g, ws, deadline, w, ReadLoad, rest);
    run := [By(w, ReadLoad)] + rest;
  }

  function AdoptStep(p: Proc, s: SessionId): Step {
    AdoptNext(if s in p.live then Unprepared else Opened)
  }

  lemma MayAdopt(g: Fleet, ws: seq<WorkerId>, deadline: int, w: WorkerId, ids: seq<SessionId>)
    requires Ahead(g, ws, deadline, w, ids) && ids != []
    ensures var step := AdoptStep(g.procs[w], ids[0]);
            && Enabled(g, By(w, step)) && Reconciles(g, ws, By(w, step)) && ids[0] in Owned(g.rows, w)
  {
    assert InStep(g.rows, ws, w, g.procs[w]) && ids[0] in Elems(ids);
  }

  lemma CalmOn(g: Fleet, ws: seq<WorkerId>, deadline: int, w: WorkerId, step: Step)
    requires Steady(g, ws, deadline) && Calm(g, ws) && Enabled(g, By(w, step)) && Reconciles(g, ws, By(w, step))
    requires Quiet(step)
    ensures Steady(Perform(g, w, step), ws, deadline) && Calm(Perform(g, w, step), ws)
    ensures OwnersKept(g.rows, RowsAfter(g, w, step))
  {
    SteadyOn(g, ws, deadline, w, step);
    hide Steady, Calm, Perform, RowsAfter, OwnersKept;
    CalmStep(g, ws, deadline, By(w, step));
    QuietRows(g, ws, w, step);
  }

  // Adopting one keeps w on its way.
  lemma AdoptsOne(g: Fleet, ws: seq<WorkerId>, deadline: int, w: WorkerId, ids: seq<SessionId>)
    requires Ahead(g, ws, deadline, w, ids) && ids != []
    ensures var step := AdoptStep(g.procs[w], ids[0]);
            && Enabled(g, By(w, step)) && Reconciles(g, ws, By(w, step))
            && Ahead(Perform(g, w, step), ws, deadline, w, ids[1..])
  {
    MayAdopt(g, ws, deadline, w, ids);
    var step := AdoptStep(g.procs[w], ids[0]);
    CalmOn(g, ws, deadline, w, step);
    Adopted(g, w, ids);
    hide Steady, Calm, Perform, RowsAfter, OwnersKept, Reconciles, Allowed, Wanting, AdoptStep;
    AheadStill(g, Perform(g, w, step), ws, deadline, w, ids);
  }

  lemma AheadStill(g: Fleet, g': Fleet, ws: seq<WorkerId>, deadline: int, w: WorkerId, ids: seq<SessionId>)
    requires Ahead(g, ws, deadline, w, ids) && ids != [] && ids[0] in Owned(g.rows, w)
    requires Steady(g', ws, deadline) && Calm(g', ws) && OwnersKept(g.rows, g'.rows) && w in g'.procs
    requires g'.procs[w].live.Keys == g.procs[w].live.Keys + {ids[0]} && g'.procs[w].retry == map[]
    requires g'.procs[w].todo == Adopting(ids[1..]) && g'.procs[w].capacity == g.procs[w].capacity
    requires forall x :: x in g'.locks && x != ids[0] ==> x in g.locks
    requires ids[0] !in ids[1..] && NoDup(ids[1..])
    ensures Ahead(g', ws, deadline, w, ids[1..])
  {
    hide Steady, Calm, OwnersKept, Wanting;
    var p := g.procs[w];
    assert g'.procs[w].live.Keys + Owned(g.rows, w) == p.live.Keys + Owned(g.rows, w);
    StillWanting(g.rows, g'.rows, ws, w, p.live.Keys, g'.procs[w].live.Keys, p.capacity);
    assert ids == [ids[0]] + ids[1..];
  }

  lemma Adopted(g: Fleet, w: WorkerId, ids: seq<SessionId>)
    requires w in g.procs && g.procs[w].todo == Adopting(ids) && ids != [] && g.procs[w].retry == map[]
    requires NoDup(ids) && (ids[0] in g.procs[w].live || ids[0] !in g.locks)
    ensures var step := AdoptStep(g.procs[w], ids[0]); var g' := Perform(g, w, step);
      && g'.rows == RowsAfter(g, w, step) && w in g'.procs
      && g'.procs[w].live.Keys == g.procs[w].live.Keys + {ids[0]}
      && g'.procs[w].retry == map[] && g'.procs[w].todo == Adopting(ids[1..]) && g'.procs[w].capacity == g.procs[w].capacity
      && (forall x :: x in g'.locks && x != ids[0] ==> x in g.locks)
      && ids[0] !in ids[1..] && NoDup(ids[1..])
  {
    hide RowsAfter;
  }

  lemma {:induction false} AdoptsAll(g: Fleet, ws: seq<WorkerId>, deadline: int, w: WorkerId, ids: seq<SessionId>)
    returns (run: seq<Action>)
    requires Ahead(g, ws, deadline, w, ids)
    ensures CalmRun(g, run, ws, deadline) && TotalMoved(run) > 0
    ensures forall a :: a in run ==> a.By? && a.w == w
    decreases |ids|
  {
    if ids == [] {
      run := LoadsAndMoves(g, ws, deadline, w);
    } else {
      AdoptsOne(g, ws, deadline, w, ids);
      var step := AdoptStep(g.procs[w], ids[0]);
      var rest := AdoptsAll(Perform(g, w, step), ws, deadline, w, ids[1..]);
      hide Calm, Perform, CalmRun, Wanting;
      Prepend(g, ws, deadline, w, step, rest);
      run := [By(w, step)] + rest;
    }
  }

  // --- the beginning of a pass ---

  // No worker is in a pass, backing off or short of room, and what it owns and does
  // not hold can be opened.
  ghost predicate AtRest(g: Fleet, ws: seq<WorkerId>) {
    forall w :: w in ws ==>
      && w in g.procs && g.procs[w].todo == Idle && g.procs[w].exit == Running && g.procs[w].retry == map[]
      && (forall s :: s in Owned(g.rows, w) ==> s in g.procs[w].live || s !in g.locks)
      && (Load(g.rows, w) < FairShare(g.rows, ws) ==> |g.procs[w].live.Keys + Owned(g.rows, w)| < g.procs[w].capacity)
  }

  // Someone is behind: if nobody has too much, whoever could host an unhosted
  // session has too little.
  lemma SomeoneWants(g: Fleet, ws: seq<WorkerId>) returns (w: WorkerId)
    requires ws != [] && NoDup(ws) && AtRest(g, ws) && Measure(g.rows, ws) > 0
    ensures w in ws && w in g.procs && Wanting(g.rows, ws, w, g.procs[w].live.Keys, g.procs[w].capacity)
  {
    var share := FairShare(g.rows, ws);
    MeasureZero(g.rows, ws);
    if exists v :: v in ws && Load(g.rows, v) > share {
      w :| w in ws && Load(g.rows, w) > share;
    } else {
      if forall v :: v in ws ==> Load(g.rows, v) >= share {
        LoadsPartition(g.rows, ws);
        SumAtLeast(g.rows, ws, share);
        ShareCovers(|AllAuthorized(g.rows)|, |ws|);
      }
      w :| w in ws && Load(g.rows, w) < share;
    }
  }

  // A pass up to its list of sessions to adopt.
  lemma Opens(g: Fleet, ws: seq<WorkerId>, deadline: int, w: WorkerId) returns (run: seq<Action>)
    requires Steady(g, ws, deadline) && Calm(g, ws) && AtRest(g, ws) && w in ws
    requires w in g.procs && Wanting(g.rows, ws, w, g.procs[w].live.Keys, g.procs[w].capacity)
    ensures CalmRun(g, run, ws, deadline) && TotalMoved(run) > 0
    ensures forall a :: a in run ==> a.By? && a.w == w
  {
    hide Steady, Calm, Wanting, CalmRun;
    var p := g.procs[w];
    CalmOn(g, ws, deadline, w, BeginPass);
    var g1 := Perform(g, w, BeginPass);
    CalmOn(g1, ws, deadline, w, ExpireLogins);
    var g2 := Perform(g1, w, ExpireLogins);
    var rest := OpensFrom(g2, ws, deadline, w, g);
    hide Perform, Allowed;
    Prepend(g1, ws, deadline, w, ExpireLogins, rest);
    Prepend(g, ws, deadline, w, BeginPass, [By(w, ExpireLogins)] + rest);
    run := [By(w, BeginPass)] + ([By(w, ExpireLogins)] + rest);
  }

  lemma OpensFrom(g: Fleet, ws: seq<WorkerId>, deadline: int, w: WorkerId, was: Fleet) returns (run: seq<Action>)
    requires Steady(g, ws, deadline) && Calm(g, ws) && AtRest(was, ws) && w in ws && w in was.procs && w in g.procs
    requires OwnersKept(was.rows, g.rows) && g.locks == was.locks
    requires Wanting(was.rows, ws, w, was.procs[w].live.Keys, was.procs[w].capacity)
    requires g.procs[w].todo == Swept && g.procs[w].live == was.procs[w].live && g.procs[w].retry == map[]
    requires g.procs[w].capacity == was.procs[w].capacity
    ensures CalmRun(g, run, ws, deadline) && TotalMoved(run) > 0
    ensures forall a :: a in run ==> a.By? && a.w == w
  {
    hide Steady, Calm, Wanting, CalmRun, Adoptable, Foreign, OwnersKept, AtRest, Perform, Allowed, Lists, Owned;
    NothingForeign(g, ws, w);
    var owned := ToAdopt(g, ws, w, was);
    Queries(g, w, owned);
    var g1 := Perform(g, w, QueryForeign([]));
    CalmOn(g, ws, deadline, w, QueryForeign([]));
    var g2 := Perform(g1, w, QueryOwned(owned));
    CalmOn(g1, ws, deadline, w, QueryOwned(owned));
    var rest := AdoptsAll(g2, ws, deadline, w, owned);
    Prepend(g1, ws, deadline, w, QueryOwned(owned), rest);
    Prepend(g, ws, deadline, w, QueryForeign([]), [By(w, QueryOwned(owned))] + rest);
    run := [By(w, QueryForeign([]))] + ([By(w, QueryOwned(owned))] + rest);
  }

  lemma ToAdopt(g: Fleet, ws: seq<WorkerId>, w: WorkerId, was: Fleet) returns (owned: seq<SessionId>)
    requires Calm(g, ws) && AtRest(was, ws) && w in ws && w in was.procs && w in g.procs
    requires OwnersKept(was.rows, g.rows) && g.locks == was.locks && g.procs[w].live == was.procs[w].live
    requires Wanting(was.rows, ws, w, was.procs[w].live.Keys, was.procs[w].capacity)
    ensures Lists(owned, Adoptable(g.rows, w)) && NoDup(owned)
    ensures forall s :: s in Owned(g.rows, w) ==> s in owned
    ensures forall s :: s in owned ==> s in g.procs[w].live || s !in g.locks
    ensures Wanting(g.rows, ws, w, g.procs[w].live.Keys, was.procs[w].capacity)
  {
    owned := Pick(Adoptable(g.rows, w), |Adoptable(g.rows, w)|);
    AllPicked(owned, Adoptable(g.rows, w));
    AllAdoptable(g, ws, w);
    hide Calm, Adoptable;
    SameLoad(was.rows, g.rows, w);
    StillWanting(was.rows, g.rows, ws, w, was.procs[w].live.Keys, g.procs[w].live.Keys, was.procs[w].capacity);
    assert forall s :: s in owned <==> s in Elems(owned);
  }

  lemma Queries(g: Fleet, w: WorkerId, owned: seq<SessionId>)
    requires w in g.procs && g.procs[w].todo == Swept && Lists(owned, Adoptable(g.rows, w))
    requires Lists([], Foreign(g.rows, g.beats, w, g.procs[w].live.Keys, g.procs[w].cutoff))
    ensures Enabled(g, By(w, QueryForeign([])))
    ensures var g1 := Perform(g, w, QueryForeign([]));
      && Enabled(g1, By(w, QueryOwned(owned)))
      && var g2 := Perform(g1, w, QueryOwned(owned));
      && g2.rows == g.rows && g2.locks == g.locks && w in g2.procs && g2.procs[w].todo == Adopting(owned)
      && g2.procs[w].live == g.procs[w].live && g2.procs[w].retry == g.procs[w].retry
      && g2.procs[w].capacity == g.procs[w].capacity
  {
    hide Adoptable, Foreign;
  }

  lemma NothingForeign(g: Fleet, ws: seq<WorkerId>, w: WorkerId)
    requires Calm(g, ws) && w in ws && w in g.procs
    ensures Lists([], Foreign(g.rows, g.beats, w, g.procs[w].live.Keys, g.procs[w].cutoff))
  {
    assert InStep(g.rows, ws, w, g.procs[w]);
    NoElems<SessionId>([]);
  }

  lemma AllPicked(ids: seq<SessionId>, s: set<SessionId>)
    requires NoDup(ids) && Elems(ids) <= s && |ids| == |s|
    ensures Lists(ids, s)
  {
    NoDupSize(ids);
    assert s == Elems(ids) + (s - Elems(ids));
    assert |s - Elems(ids)| == 0;
  }

  lemma AllAdoptable(g: Fleet, ws: seq<WorkerId>, w: WorkerId)
    requires Calm(g, ws)
    ensures Adoptable(g.rows, w) == Owned(g.rows, w)
  {
    forall s | s in Owned(g.rows, w)
      ensures s in Adoptable(g.rows, w)
    {
      assert IsAuthorized(g.rows, s);
    }
  }

  // While the fleet is not balanced, there is a worker whose next pass moves a
  // session. With the measure bounding all moves, rebalancing gets there.
  lemma SomePassMoves(g: Fleet, ws: seq<WorkerId>, deadline: int) returns (w: WorkerId, run: seq<Action>)
    requires ws != [] && NoDup(ws) && Steady(g, ws, deadline) && Calm(g, ws) && AtRest(g, ws)
    requires Measure(g.rows, ws) > 0
    ensures w in ws && (forall a :: a in run ==> a.By? && a.w == w)
    ensures CalmRun(g, run, ws, deadline) && TotalMoved(run) > 0
    ensures IsRun(g, run) && Measure(After(g, run).rows, ws) < Measure(g.rows, ws)
  {
    hide Steady, Calm, AtRest, CalmRun;
    w := SomeoneWants(g, ws);
    run := Opens(g, ws, deadline, w);
    RunLowersMeasure(g, run, ws, deadline);
  }

  // There are such fleets: one worker that has just started, and a session nobody
  // hosts.
  lemma UnbalancedAtRest(w: WorkerId, s: SessionId)
    ensures var g := Fleet(map[s := Row(Authorized, None, 0, true)], map[w := 0],
                           map[w := Proc(map[], map[], 10, 0, Idle, {}, Running)], map[], 0);
            && Steady(g, [w], -WORKER_STALE) && Calm(g, [w]) && AtRest(g, [w]) && Measure(g.rows, [w]) > 0
  {
    var rows: Rows := map[s := Row(Authorized, None, 0, true)];
    assert s in Unhosted(rows, [w]);
    assert Owned(rows, w) == {};
  }
}
