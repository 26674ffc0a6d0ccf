/** Rebalancing converges: from a steady and calm fleet at rest there is a run of
    whole passes that ends balanced and at rest again. */
module Convergence {
  import opened Common
  import opened Registry
  import opened Fleet
  import opened Rebalance
  import opened Progress

  // --- what a fleet of reconciling workers keeps ---

  // An authorized session's directory is open only at its owner, which holds it.
  predicate OpenAtOwner(g: Fleet, ws: seq<WorkerId>, s: SessionId) {
    IsAuthorized(g.rows, s) && s in g.locks ==>
      var x := g.locks[s];
      x in ws && x in g.procs && s in g.procs[x].live && OwnedBy(g.rows, s, x)
  }

  ghost predicate Directories(g: Fleet, ws: seq<WorkerId>) {
    forall s :: OpenAtOwner(g, ws, s)
  }

  // A client that is being dropped or released has given its directory back.
  predicate ClosedAreFree(p: Proc, locks: map<SessionId, WorkerId>) {
    && (p.todo.Dropping? ==> p.todo.closing !in locks)
    && (p.todo.Releasing? ==> p.todo.closed !in locks)
  }

  // Entries that are not accounts yet: logins in flight.
  function Logins(rows: Rows, live: map<SessionId, Entry>): set<SessionId> {
    set s | s in live && !IsAuthorized(rows, s)
  }

  // Capacity does not bind: everyone could hold its fair share.
  predicate Room(g: Fleet, ws: seq<WorkerId>) {
    forall v :: v in ws && v in g.procs ==>
      |Logins(g.rows, g.procs[v].live)| + FairShare(g.rows, ws) <= g.procs[v].capacity
  }

  predicate Undisturbed(p: Proc) {
    p.exit == Running && p.retry == map[]
  }

  // Only w is in a pass.
  ghost predicate InPass(g: Fleet, ws: seq<WorkerId>, w: WorkerId) {
    && Calm(g, ws) && w in ws
    && (forall v :: v in ws ==> v in g.procs && Undisturbed(g.procs[v]) && (v != w ==> g.procs[v].todo == Idle))
    && Directories(g, ws) && ClosedAreFree(g.procs[w], g.locks) && Room(g, ws)
  }

  // Nobody is.
  ghost predicate Resting(g: Fleet, ws: seq<WorkerId>) {
    forall w :: w in ws ==> InPass(g, ws, w) && g.procs[w].todo == Idle
  }

  // --- one step ---

  // What a step of a pass does to the worker's entries and to the directories.
  lemma Touches(g: Fleet, ws: seq<WorkerId>, w: WorkerId, step: Step)
    requires Calm(g, ws) && w in ws && Enabled(g, By(w, step)) && Reconciles(g, ws, By(w, step))
    ensures var p, live, locks := g.procs[w], LiveAfter(g, g.procs[w], step), LocksAfter(g, w, step);
            var op := Opening(p, step, g.now);
            && (forall s :: s in live && s !in p.live ==> op.Some? && op.value.0 == s)
            && (forall s :: s in p.live && s !in live ==> step.DropNext? && s == p.todo.closing)
            && (forall s :: s in locks && (s !in g.locks || locks[s] != g.locks[s]) ==>
                  op.Some? && op.value.0 == s && locks[s] == w && s in live)
            && (forall s :: s in g.locks && s !in locks ==> step.CloseNext?)
  {
    assert InStep(g.rows, ws, w, g.procs[w]);
    hide RowsAfter, BeatsAfter, RetryAfter, TodoAfter, HeldByOwner, NoDup;
  }

  // A session of the pass stays authorized, and its owner what it was, unless the
  // step releases or claims it.
  lemma OwnersAfter(g: Fleet, ws: seq<WorkerId>, deadline: int, w: WorkerId, step: Step, s: SessionId)
    requires Steady(g, ws, deadline) && Calm(g, ws) && w in ws && Enabled(g, By(w, step)) && Reconciles(g, ws, By(w, step))
    requires IsAuthorized(g.rows, s)
    ensures var rows := RowsAfter(g, w, step);
            && IsAuthorized(rows, s)
            && (rows[s].owner == g.rows[s].owner
                || (step.ReleaseNext? && s == g.procs[w].todo.closed)
                || (step.Claim? && s in Unhosted(g.rows, ws)))
  {
    if !Moves(step) {
      hide Steady, Calm, RowsAfter;
      QuietRows(g, ws, w, step);
    } else if step.Claim? {
      ClaimIsOrphans(g, ws, deadline, w, step.claimed);
    }
  }

  lemma NewlyAuthorized(g: Fleet, ws: seq<WorkerId>, deadline: int, w: WorkerId, step: Step, s: SessionId)
    requires Steady(g, ws, deadline) && Calm(g, ws) && w in ws && Enabled(g, By(w, step)) && Reconciles(g, ws, By(w, step))
    ensures IsAuthorized(RowsAfter(g, w, step), s) <==> IsAuthorized(g.rows, s)
  {
    hide Steady, Calm, RowsAfter, Perform, Allowed, Reconciles;
    CalmStep(g, ws, deadline, By(w, step));
    assert s in AllAuthorized(Perform(g, w, step).rows) <==> s in AllAuthorized(g.rows);
    SameRows(g, w, step);
  }

  lemma SameRows(g: Fleet, w: WorkerId, step: Step)
    requires Enabled(g, By(w, step))
    ensures Perform(g, w, step).rows == RowsAfter(g, w, step) && Perform(g, w, step).locks == LocksAfter(g, w, step)
    ensures w in Perform(g, w, step).procs && Perform(g, w, step).procs[w].live == LiveAfter(g, g.procs[w], step)
    ensures Perform(g, w, step).procs[w].todo == TodoAfter(g, w, step)
    ensures Perform(g, w, step).procs[w].capacity == g.procs[w].capacity
    ensures forall v :: v in g.procs && v != w ==> v in Perform(g, w, step).procs && Perform(g, w, step).procs[v] == g.procs[v]
  {
  }

  // A directory that stays open stays open at its owner: a step drops or releases
  // only sessions whose directory is free, and claims only unhosted ones.
  lemma KeptOpen(g: Fleet, ws: seq<WorkerId>, deadline: int, w: WorkerId, step: Step, s: SessionId)
    requires Steady(g, ws, deadline) && InPass(g, ws, w) && Enabled(g, By(w, step)) && Reconciles(g, ws, By(w, step))
    requires IsAuthorized(g.rows, s) && s in g.locks
    ensures IsAuthorized(RowsAfter(g, w, step), s) && RowsAfter(g, w, step)[s].owner == g.rows[s].owner
    ensures g.locks[s] in ws && g.locks[s] in g.procs && g.rows[s].owner == Some(g.locks[s])
    ensures s in if g.locks[s] == w then LiveAfter(g, g.procs[w], step) else g.procs[g.locks[s]].live
  {
    assert w in g.procs && (step.DropNext? ==> g.procs[w].todo.Dropping?) && (step.ReleaseNext? ==> g.procs[w].todo.Releasing?);
    assert OpenAtOwner(g, ws, s);
    assert s !in Unhosted(g.rows, ws);
    hide Steady, Calm, RowsAfter, LiveAfter, LocksAfter, Reconciles, Allowed, Room, Directories, Unhosted;
    Touches(g, ws, w, step);
    OwnersAfter(g, ws, deadline, w, step, s);
  }

  lemma NewlyOpen(g: Fleet, ws: seq<WorkerId>, w: WorkerId, step: Step, s: SessionId)
    requires Calm(g, ws) && w in ws && Enabled(g, By(w, step)) && Reconciles(g, ws, By(w, step))
    requires s in LocksAfter(g, w, step) && (s !in g.locks || LocksAfter(g, w, step)[s] != g.locks[s])
    ensures LocksAfter(g, w, step)[s] == w && s in LiveAfter(g, g.procs[w], step)
    ensures !Moves(step) && OwnedBy(g.rows, s, w)
  {
    hide Calm, LiveAfter, LocksAfter, Reconciles, Allowed;
    Touches(g, ws, w, step);
    OpensOwn(g, ws, w, step);
  }

  lemma DirectoryStep(g: Fleet, ws: seq<WorkerId>, deadline: int, w: WorkerId, step: Step, s: SessionId)
    requires Steady(g, ws, deadline) && InPass(g, ws, w) && Enabled(g, By(w, step)) && Reconciles(g, ws, By(w, step))
    ensures OpenAtOwner(Perform(g, w, step), ws, s)
  {
    assert w in g.procs && w in ws && Calm(g, ws);
    hide InPass, Steady, Calm, Perform, RowsAfter, LiveAfter, LocksAfter, TodoAfter, Reconciles, Allowed;
    SameRows(g, w, step);
    NewlyAuthorized(g, ws, deadline, w, step, s);
    if IsAuthorized(g.rows, s) && s in LocksAfter(g, w, step) {
      if s in g.locks && LocksAfter(g, w, step)[s] == g.locks[s] {
        KeptOpen(g, ws, deadline, w, step, s);
      } else {
        NewlyOpen(g, ws, w, step, s);
        QuietRows(g, ws, w, step);
      }
    }
  }

  // The client a shed closes was open here or nowhere.
  lemma CloseFrees(g: Fleet, ws: seq<WorkerId>, w: WorkerId)
    requires InPass(g, ws, w) && Enabled(g, By(w, CloseNext(true)))
    ensures g.procs[w].todo.victims[0] !in LocksAfter(g, w, CloseNext(true))
  {
    var p := g.procs[w];
    assert InStep(g.rows, ws, w, p);
    var s := p.todo.victims[0];
    assert s in Elems(p.todo.victims) && s in UsableSessions(p);
    assert IsAuthorized(g.rows, s) && OwnedBy(g.rows, s, w);
    assert OpenAtOwner(g, ws, s);
  }

  lemma FreeStep(g: Fleet, ws: seq<WorkerId>, w: WorkerId, step: Step)
    requires InPass(g, ws, w) && Enabled(g, By(w, step)) && Reconciles(g, ws, By(w, step))
    ensures ClosedAreFree(Perform(g, w, step).procs[w], Perform(g, w, step).locks)
  {
    hide Calm, Room, Directories, Perform, RowsAfter, LiveAfter, BeatsAfter, RetryAfter, ExitAfter, Undisturbed,
         CanOpen, MayShed, MayClaim, Lists, Unused;
    SameRows(g, w, step);
    if step.CloseNext? {
      CloseFrees(g, ws, w);
    }
  }

  lemma DropsOwn(g: Fleet, ws: seq<WorkerId>, w: WorkerId)
    requires Calm(g, ws) && w in ws && w in g.procs && g.procs[w].todo.Dropping?
    ensures IsAuthorized(g.rows, g.procs[w].todo.closing)
  {
    assert InStep(g.rows, ws, w, g.procs[w]);
  }

  // The entries a step of w adds or drops are accounts, so w's logins stay.
  lemma LoginsStay(g: Fleet, ws: seq<WorkerId>, w: WorkerId, step: Step)
    requires Calm(g, ws) && w in ws && Enabled(g, By(w, step)) && Reconciles(g, ws, By(w, step))
    ensures Logins(g.rows, LiveAfter(g, g.procs[w], step)) == Logins(g.rows, g.procs[w].live)
  {
    assert w in g.procs && (step.DropNext? ==> g.procs[w].todo.Dropping?);
    hide Calm, LiveAfter, LocksAfter, Opening, Reconciles, Allowed, IsAuthorized;
    Touches(g, ws, w, step);
    if Opening(g.procs[w], step, g.now).Some? {
      OpensOwn(g, ws, w, step);
    }
    if step.DropNext? {
      DropsOwn(g, ws, w);
    }
  }

  lemma SameLogins(rows: Rows, rows': Rows, live: map<SessionId, Entry>)
    requires forall s :: IsAuthorized(rows', s) <==> IsAuthorized(rows, s)
    ensures Logins(rows', live) == Logins(rows, live)
  {
  }

  lemma SameShare(rows: Rows, rows': Rows, ws: seq<WorkerId>)
    requires forall s :: IsAuthorized(rows', s) <==> IsAuthorized(rows, s)
    ensures FairShare(rows', ws) == FairShare(rows, ws)
  {
    assert forall s :: s in AllAuthorized(rows) <==> IsAuthorized(rows, s);
    assert forall s :: s in AllAuthorized(rows') <==> IsAuthorized(rows', s);
    assert AllAuthorized(rows') == AllAuthorized(rows);
  }

  lemma RoomStep(g: Fleet, ws: seq<WorkerId>, deadline: int, w: WorkerId, step: Step)
    requires Steady(g, ws, deadline) && InPass(g, ws, w) && Enabled(g, By(w, step)) && Reconciles(g, ws, By(w, step))
    ensures Room(Perform(g, w, step), ws)
  {
    hide Steady, Calm, Perform, RowsAfter, LiveAfter, LocksAfter, TodoAfter, Reconciles, Allowed, FairShare, IsAuthorized,
         Directories, ClosedAreFree, Undisturbed;
    var g' := Perform(g, w, step);
    SameRows(g, w, step);
    forall s
      ensures IsAuthorized(g'.rows, s) <==> IsAuthorized(g.rows, s)
    {
      NewlyAuthorized(g, ws, deadline, w, step, s);
    }
    SameShare(g.rows, g'.rows, ws);
    LoginsStay(g, ws, w, step);
    forall v | v in ws && v in g'.procs
      ensures Logins(g'.rows, g'.procs[v].live) == Logins(g.rows, g.procs[v].live)
      ensures g'.procs[v].capacity == g.procs[v].capacity
    {
      SameLogins(g.rows, g'.rows, g'.procs[v].live);
    }
  }

  lemma StaysUndisturbed(g: Fleet, ws: seq<WorkerId>, w: WorkerId, step: Step)
    requires w in g.procs && Undisturbed(g.procs[w]) && Enabled(g, By(w, step)) && Reconciles(g, ws, By(w, step))
    ensures Undisturbed(Perform(g, w, step).procs[w])
  {
    hide RowsAfter, BeatsAfter, LiveAfter, LocksAfter, TodoAfter, Allowed;
  }

  lemma InPassStep(g: Fleet, ws: seq<WorkerId>, deadline: int, w: WorkerId, step: Step)
    requires Steady(g, ws, deadline) && InPass(g, ws, w) && Enabled(g, By(w, step)) && Reconciles(g, ws, By(w, step))
    ensures InPass(Perform(g, w, step), ws, w)
  {
    hide Steady, Calm, Perform, Room, OpenAtOwner, ClosedAreFree, Undisturbed, RowsAfter, LiveAfter, LocksAfter, TodoAfter,
         Allowed, Reconciles, Measure, AllAuthorized;
    CalmStep(g, ws, deadline, By(w, step));
    RoomStep(g, ws, deadline, w, step);
    FreeStep(g, ws, w, step);
    StaysUndisturbed(g, ws, w, step);
    SameRows(g, w, step);
    forall s
      ensures OpenAtOwner(Perform(g, w, step), ws, s)
    {
      DirectoryStep(g, ws, deadline, w, step, s);
    }
  }

  // --- the rest of a pass ---

  // How far a pass is from its end: first by where it stands, then by its list.
  function Rank(t: Todo): (nat, nat) {
    match t
    case Idle => (0, 0)
    case Shedding(ids) => (1, 3 * |ids|)
    case Dropping(_, rest) => (1, 3 * |rest| + 2)
    case Releasing(_, rest) => (1, 3 * |rest| + 1)
    case Claimed(ids) => (1, |ids|)
    case Loaded(_, _, _) => (2, 0)
    case Adopting(ids) => (3, |ids|)
    case Fencing(ids) => (4, |ids|)
    case Swept => (5, 0)
    case Started => (6, 0)
  }

  predicate Lower(a: (nat, nat), b: (nat, nat)) {
    a.0 < b.0 || (a.0 == b.0 && a.1 < b.1)
  }

  // What w owns and does not hold, it can open.
  lemma CanOpenOwn(g: Fleet, ws: seq<WorkerId>, w: WorkerId, s: SessionId)
    requires InPass(g, ws, w) && IsAuthorized(g.rows, s) && OwnedBy(g.rows, s, w) && s !in g.procs[w].live
    ensures s !in g.locks
  {
    assert OpenAtOwner(g, ws, s);
  }

  lemma NextAdopt(g: Fleet, ws: seq<WorkerId>, w: WorkerId) returns (step: Step)
    requires InPass(g, ws, w) && g.procs[w].todo.Adopting? && g.procs[w].todo.owned != []
    ensures Enabled(g, By(w, step)) && Reconciles(g, ws, By(w, step))
    ensures Lower(Rank(TodoAfter(g, w, step)), Rank(g.procs[w].todo))
    ensures !step.Heartbeat? && !step.PurgeWorkers?
  {
    var p := g.procs[w];
    assert InStep(g.rows, ws, w, p);
    var s := p.todo.owned[0];
    assert s in Elems(p.todo.owned);
    step := AdoptStep(p, s);
    if s !in p.live {
      CanOpenOwn(g, ws, w, s);
    }
  }

  lemma NextHydrate(g: Fleet, ws: seq<WorkerId>, w: WorkerId) returns (step: Step)
    requires InPass(g, ws, w) && g.procs[w].todo.Claimed? && g.procs[w].todo.claimed != []
    ensures Enabled(g, By(w, step)) && Reconciles(g, ws, By(w, step))
    ensures Lower(Rank(TodoAfter(g, w, step)), Rank(g.procs[w].todo))
    ensures !step.Heartbeat? && !step.PurgeWorkers?
  {
    var p := g.procs[w];
    assert InStep(g.rows, ws, w, p);
    var s := p.todo.claimed[0];
    assert s in Elems(p.todo.claimed) && s in Owned(g.rows, w);
    CanOpenOwn(g, ws, w, s);
    step := HydrateNext(Opened);
  }

  lemma NextShed(g: Fleet, w: WorkerId) returns (ids: seq<SessionId>)
    requires w in g.procs && g.procs[w].todo.Loaded? && Overloaded(g.procs[w])
    ensures Enabled(g, By(w, StartShed(ids)))
  {
    var p := g.procs[w];
    hide NoDup;
    ids := Pick(UsableSessions(p), Min(Min(p.todo.mine - Share(p.todo.total, p.todo.alive), SHED_PER_TICK),
                                       |UsableSessions(p)|));
  }

  lemma NextClaim(g: Fleet, w: WorkerId) returns (ids: seq<SessionId>)
    requires w in g.procs && g.procs[w].todo.Loaded? && Underloaded(g.procs[w]) && ClaimLimit(g.procs[w]) > 0
    ensures Enabled(g, By(w, Claim(ids)))
  {
    var p := g.procs[w];
    var orphans := Orphans(g.rows, g.beats, p.cutoff);
    hide NoDup, Orphans;
    ids := PickOldest(g.rows, orphans, Min(ClaimLimit(p), |orphans|));
    assert IsClaim(g.rows, g.beats, p.cutoff, ClaimLimit(p), ids);
  }

  lemma NextFromLoad(g: Fleet, w: WorkerId, ws: seq<WorkerId>) returns (step: Step)
    requires w in g.procs && w in ws && g.procs[w].todo.Loaded?
    ensures Enabled(g, By(w, step)) && Reconciles(g, ws, By(w, step))
    ensures Lower(Rank(TodoAfter(g, w, step)), Rank(g.procs[w].todo))
    ensures !step.Heartbeat? && !step.PurgeWorkers?
  {
    var p := g.procs[w];
    if Overloaded(p) {
      var ids := NextShed(g, w);
      step := StartShed(ids);
    } else if Underloaded(p) && ClaimLimit(p) > 0 {
      var ids := NextClaim(g, w);
      step := Claim(ids);
    } else {
      step := EndPass;
    }
    hide MayShed, MayClaim, Overloaded, Underloaded, ClaimLimit;
  }

  lemma NextQuery(g: Fleet, ws: seq<WorkerId>, w: WorkerId) returns (step: Step)
    requires InPass(g, ws, w) && (g.procs[w].todo.Swept? || g.procs[w].todo.Fencing?)
    ensures Enabled(g, By(w, step)) && Reconciles(g, ws, By(w, step))
    ensures Lower(Rank(TodoAfter(g, w, step)), Rank(g.procs[w].todo))
    ensures !step.Heartbeat? && !step.PurgeWorkers?
  {
    assert InStep(g.rows, ws, w, g.procs[w]);
    if g.procs[w].todo.Swept? {
      NothingForeign(g, ws, w);
      step := QueryForeign([]);
    } else {
      var owned := Pick(Adoptable(g.rows, w), |Adoptable(g.rows, w)|);
      AllPicked(owned, Adoptable(g.rows, w));
      step := QueryOwned(owned);
    }
  }

  // The steps that need nothing but the worker's own place in its pass.
  function LocalStep(t: Todo): Step {
    match t
    case Started => ExpireLogins
    case Adopting(_) => ReadLoad
    case Shedding(ids) => if ids == [] then EndPass else CloseNext(true)
    case Dropping(_, _) => DropNext
    case Releasing(_, _) => ReleaseNext
    case _ => EndPass
  }

  predicate IsLocal(t: Todo) {
    t.Started? || t == Adopting([]) || t.Shedding? || t.Dropping? || t.Releasing? || t == Claimed([])
  }

  lemma NextLocal(g: Fleet, ws: seq<WorkerId>, w: WorkerId)
    requires w in g.procs && w in ws && IsLocal(g.procs[w].todo)
    ensures var step := LocalStep(g.procs[w].todo);
            && Enabled(g, By(w, step)) && Reconciles(g, ws, By(w, step))
            && Lower(Rank(TodoAfter(g, w, step)), Rank(g.procs[w].todo))
            && !step.Heartbeat? && !step.PurgeWorkers?
  {
    hide CanOpen, MayShed, MayClaim, Lists, Unused;
  }

  // A pass can always go on, towards its end.
  lemma Next(g: Fleet, ws: seq<WorkerId>, deadline: int, w: WorkerId) returns (step: Step)
    requires Steady(g, ws, deadline) && InPass(g, ws, w) && g.procs[w].todo != Idle
    ensures Enabled(g, By(w, step)) && Reconciles(g, ws, By(w, step))
    ensures Lower(Rank(TodoAfter(g, w, step)), Rank(g.procs[w].todo))
    ensures !step.Heartbeat? && !step.PurgeWorkers?
  {
    assert w in ws && w in g.procs;
    hide InPass, Steady, Allowed, Reconciles, Rank, TodoAfter, LocalStep;
    var t := g.procs[w].todo;
    if IsLocal(t) {
      NextLocal(g, ws, w);
      step := LocalStep(t);
    } else if t.Loaded? {
      step := NextFromLoad(g, w, ws);
    } else if t.Adopting? {
      step := NextAdopt(g, ws, w);
    } else if t.Claimed? {
      step := NextHydrate(g, ws, w);
    } else {
      step := NextQuery(g, ws, w);
    }
  }

  lemma {:induction false} FinishPass(g: Fleet, ws: seq<WorkerId>, deadline: int, w: WorkerId) returns (run: seq<Action>)
    requires Steady(g, ws, deadline) && InPass(g, ws, w)
    ensures CalmRun(g, run, ws, deadline) && IsRun(g, run)
    ensures InPass(After(g, run), ws, w) && After(g, run).procs[w].todo == Idle
    ensures Steady(After(g, run), ws, deadline)
    decreases Rank(g.procs[w].todo).0, Rank(g.procs[w].todo).1
  {
    if g.procs[w].todo == Idle {
      run := [];
    } else {
      var step := Next(g, ws, deadline, w);
      SteadyOn(g, ws, deadline, w, step);
      InPassStep(g, ws, deadline, w, step);
      SameRows(g, w, step);
      var rest := FinishPass(Perform(g, w, step), ws, deadline, w);
      run := [By(w, step)] + rest;
      hide InPass, Steady, Perform, Allowed, Rank, TodoAfter, Reconciles, CalmRun;
      Prepend(g, ws, deadline, w, step, rest);
      assert ([By(w, step)] + rest)[1..] == rest;
      CalmRunIsRun(g, run, ws, deadline);
    }
  }

  // --- all the way ---

  // Nothing a calm run of w does disturbs the pass.
  lemma {:induction false} InPassRun(g: Fleet, run: seq<Action>, ws: seq<WorkerId>, deadline: int, w: WorkerId)
    requires CalmRun(g, run, ws, deadline) && InPass(g, ws, w) && forall a :: a in run ==> a.By? && a.w == w
    ensures IsRun(g, run) && InPass(After(g, run), ws, w) && Steady(After(g, run), ws, deadline)
    decreases |run|
  {
    hide InPass, Steady, Perform, Allowed, Reconciles;
    if run != [] {
      InPassStep(g, ws, deadline, w, run[0].step);
      InPassRun(Perform(g, w, run[0].step), run[1..], ws, deadline, w);
    }
  }

  lemma {:induction false} CalmThen(g: Fleet, a: seq<Action>, b: seq<Action>, ws: seq<WorkerId>, deadline: int)
    requires CalmRun(g, a, ws, deadline) && IsRun(g, a) && CalmRun(After(g, a), b, ws, deadline) && IsRun(After(g, a), b)
    ensures CalmRun(g, a + b, ws, deadline) && IsRun(g, a + b)
    ensures After(g, a + b) == After(After(g, a), b)
    decreases |a|
  {
    hide Steady, Enabled, Apply, Reconciles;
    if a == [] {
      assert a + b == b;
    } else {
      assert (a + b)[1..] == a[1..] + b;
      CalmThen(Apply(g, a[0]), a[1..], b, ws, deadline);
    }
  }

  lemma PassOver(g: Fleet, ws: seq<WorkerId>, w: WorkerId)
    requires InPass(g, ws, w) && g.procs[w].todo == Idle
    ensures Resting(g, ws)
  {
    hide Calm, Directories, Room, Undisturbed;
  }

  lemma RestIsAtRest(g: Fleet, ws: seq<WorkerId>)
    requires Resting(g, ws)
    ensures AtRest(g, ws)
  {
    forall w | w in ws
      ensures w in g.procs && g.procs[w].todo == Idle && Undisturbed(g.procs[w])
      ensures forall s :: s in Owned(g.rows, w) ==> s in g.procs[w].live || s !in g.locks
      ensures Load(g.rows, w) < FairShare(g.rows, ws) ==> |g.procs[w].live.Keys + Owned(g.rows, w)| < g.procs[w].capacity
    {
      assert InPass(g, ws, w);
      forall s | s in Owned(g.rows, w) && s !in g.procs[w].live
        ensures s !in g.locks
      {
        CanOpenOwn(g, ws, w, s);
      }
      HeldAndOwned(g, ws, w);
    }
  }

  // What a worker holds or owns: its logins and its accounts.
  lemma HeldAndOwned(g: Fleet, ws: seq<WorkerId>, w: WorkerId)
    requires Calm(g, ws) && w in ws
    ensures |g.procs[w].live.Keys + Owned(g.rows, w)| <= |Logins(g.rows, g.procs[w].live)| + Load(g.rows, w)
  {
    assert InStep(g.rows, ws, w, g.procs[w]);
    var logins := Logins(g.rows, g.procs[w].live);
    assert g.procs[w].live.Keys + Owned(g.rows, w) == logins + Owned(g.rows, w);
  }

  // One whole pass of some worker brings an unbalanced fleet closer to balance.
  lemma PassGetsCloser(g: Fleet, ws: seq<WorkerId>, deadline: int) returns (run: seq<Action>)
    requires ws != [] && NoDup(ws) && Steady(g, ws, deadline) && Resting(g, ws) && Measure(g.rows, ws) > 0
    ensures CalmRun(g, run, ws, deadline) && IsRun(g, run)
    ensures Steady(After(g, run), ws, deadline) && Resting(After(g, run), ws)
    ensures Measure(After(g, run).rows, ws) < Measure(g.rows, ws)
  {
    RestIsAtRest(g, ws);
    assert InPass(g, ws, ws[0]);
    assert Calm(g, ws);
    var w, moves := SomePassMoves(g, ws, deadline);
    assert InPass(g, ws, w);
    hide Steady, Calm, InPass, AtRest, Resting, CalmRun, Measure;
    InPassRun(g, moves, ws, deadline, w);
    var mid := After(g, moves);
    var rest := FinishPass(mid, ws, deadline, w);
    CalmThen(g, moves, rest, ws, deadline);
    run := moves + rest;
    PassOver(After(mid, rest), ws, w);
    CalmOf(mid, ws, w);
    RunLowersMeasure(mid, rest, ws, deadline);
  }

  lemma CalmOf(g: Fleet, ws: seq<WorkerId>, w: WorkerId)
    requires InPass(g, ws, w)
    ensures Calm(g, ws)
  {
  }

  // So there is a run of whole passes, one worker after the other, that balances the
  // fleet and leaves it at rest.
  lemma {:induction false} ReachesBalance(g: Fleet, ws: seq<WorkerId>, deadline: int) returns (run: seq<Action>)
    requires ws != [] && NoDup(ws) && Steady(g, ws, deadline) && Resting(g, ws)
    ensures CalmRun(g, run, ws, deadline) && IsRun(g, run)
    ensures Measure(After(g, run).rows, ws) == 0 && Resting(After(g, run), ws)
    decreases Measure(g.rows, ws)
  {
    if Measure(g.rows, ws) == 0 {
      run := [];
    } else {
      var first := PassGetsCloser(g, ws, deadline);
      var mid := After(g, first);
      var rest := ReachesBalance(mid, ws, deadline);
      hide Steady, Resting, CalmRun, Measure;
      CalmThen(g, first, rest, ws, deadline);
      run := first + rest;
    }
  }

  // Such fleets exist: a worker that has just started, and a session nobody hosts.
  lemma UnbalancedRests(w: WorkerId, s: SessionId)
    ensures var g := Fleet(map[s := Row(Authorized, None, 0, true)], map[w := 0],
                           map[w := Proc(map[], map[], 10, 0, Idle, {}, Running)], map[], 0);
            Steady(g, [w], -WORKER_STALE) && Resting(g, [w]) && Measure(g.rows, [w]) > 0
  {
    UnbalancedAtRest(w, s);
    var rows: Rows := map[s := Row(Authorized, None, 0, true)];
    assert AllAuthorized(rows) == {s};
    assert Logins(rows, map[]) == {};
  }
}
