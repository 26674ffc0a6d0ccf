/** Who holds a session, over every run of the fleet: at most one worker has an
    open client for it, the active holder wins the registry row back and keeps
    it, and a login waiting for input cannot be taken away. */
module Ownership {
  import opened Common
  import opened Registry
  import opened Fleet

  // --- one holder ---

  // A worker's usable client always has the session's directory open.
  ghost predicate Exclusive(g: Fleet) {
    forall w, s :: IsReady(g, w, s) ==> s in g.locks && g.locks[s] == w
  }

  predicate NothingHeld(g: Fleet) {
    forall w :: w in g.procs ==> g.procs[w].live == map[]
  }

  // A client becomes ready by opening a free directory, or when a login that
  // has its directory open completes.
  lemma ReadyStep(g: Fleet, w: WorkerId, step: Step, v: WorkerId, s: SessionId)
    requires Enabled(g, By(w, step)) && IsReady(Perform(g, w, step), v, s)
    ensures || IsReady(g, v, s)
            || (v == w && Opening(g.procs[w], step, g.now) == Some((s, Opened)) && s !in g.locks)
            || (v == w && step == LoginReady(s))
  {
  }

  // A directory is given up only by a step that leaves no ready client behind.
  lemma LocksStep(g: Fleet, w: WorkerId, step: Step, v: WorkerId, s: SessionId)
    requires Exclusive(g) && Enabled(g, By(w, step)) && IsReady(Perform(g, w, step), v, s)
    requires s in g.locks && g.locks[s] == v
    ensures s in LocksAfter(g, w, step) && LocksAfter(g, w, step)[s] == v
  {
  }

  lemma ExclusiveStep(g: Fleet, a: Action)
    requires Exclusive(g) && Enabled(g, a)
    ensures Exclusive(Apply(g, a))
  {
    var g' := Apply(g, a);
    forall v, s | IsReady(g', v, s)
      ensures s in g'.locks && g'.locks[s] == v
    {
      if a.By? {
        ReadyStep(g, a.w, a.step, v, s);
        if s in g.locks && g.locks[s] == v {
          LocksStep(g, a.w, a.step, v, s);
        }
      } else {
        assert IsReady(g, v, s);
      }
    }
  }

  lemma {:induction false} ExclusiveRun(g: Fleet, run: seq<Action>)
    requires Exclusive(g) && IsRun(g, run)
    ensures Exclusive(After(g, run))
    decreases |run|
  {
    if run != [] {
      ExclusiveStep(g, run[0]);
      ExclusiveRun(Apply(g, run[0]), run[1..]);
    }
  }

  // From workers that hold nothing, no run ever lets two of them have an open
  // client for the same session.
  lemma OneHolder(g: Fleet, run: seq<Action>, v: WorkerId, w: WorkerId, s: SessionId)
    requires NothingHeld(g) && IsRun(g, run)
    requires IsReady(After(g, run), v, s) && IsReady(After(g, run), w, s)
    ensures v == w
  {
    ExclusiveRun(g, run);
  }

  // --- logins in flight ---

  // No other worker has anything to do with a login that is in flight, nobody
  // is about to act on it, and its row is its worker's.
  ghost predicate Alone(g: Fleet, w: WorkerId, s: SessionId) {
    && (s in g.rows ==> g.rows[s].status != Authorized && g.rows[s].owner == Some(w))
    && (forall v :: v in g.procs && v != w ==> s !in g.procs[v].live)
    && (forall v :: v in g.procs ==> s !in Outstanding(g.procs[v].todo))
  }

  ghost predicate Logins(g: Fleet) {
    forall w, s :: IsPending(g, w, s) ==> Alone(g, w, s)
  }

  ghost predicate Cutoffs(g: Fleet) {
    forall w :: w in g.procs && !g.procs[w].todo.Idle? ==> g.procs[w].cutoff <= g.now - WORKER_STALE
  }

  ghost predicate Inv(g: Fleet) {
    Exclusive(g) && Logins(g) && Cutoffs(g)
  }

  // Every worker has just started.
  predicate Initial(g: Fleet) {
    forall w :: w in g.procs ==> g.procs[w].live == map[] && g.procs[w].todo == Idle
  }

  // What a step may put on its worker's list.
  lemma OutstandingStep(g: Fleet, w: WorkerId, step: Step, s: SessionId)
    requires Enabled(g, By(w, step)) && s in Outstanding(TodoAfter(g, w, step))
    ensures || s in Outstanding(g.procs[w].todo)
            || (step.QueryForeign? && s in Foreign(g.rows, g.beats, w, g.procs[w].live.Keys, g.procs[w].cutoff))
            || (step.QueryOwned? && s in Adoptable(g.rows, w))
            || (step.StartShed? && Usable(g.procs[w], s))
            || (step.Claim? && s in Orphans(g.rows, g.beats, g.procs[w].cutoff))
  {
    hide NoDup, Foreign, Adoptable, Orphans;
    match step {
      case QueryForeign(ids) => assert s in Elems(ids);
      case QueryOwned(ids) => assert s in Elems(ids);
      case StartShed(ids) => assert s in Elems(ids);
      case Claim(ids) => assert s in Elems(ids);
      case _ =>
    }
  }

  // A session enters a live map by opening one from a list, or by a new login.
  lemma LiveStep(g: Fleet, w: WorkerId, step: Step, v: WorkerId, s: SessionId)
    requires Enabled(g, By(w, step)) && v in g.procs
    requires s in Perform(g, w, step).procs[v].live
    ensures || s in g.procs[v].live
            || s in Outstanding(g.procs[v].todo)
            || (w == v && step == CreateLogin(s))
  {
  }

  // An entry is dropped or changed only by the steps that say so.
  lemma EntryStep(g: Fleet, w: WorkerId, step: Step, s: SessionId)
    requires Enabled(g, By(w, step)) && s in g.procs[w].live
    requires s !in LiveAfter(g, g.procs[w], step) || LiveAfter(g, g.procs[w], step)[s] != g.procs[w].live[s]
    ensures var p := g.procs[w];
            || (step.FenceNext? && p.todo.Fencing? && p.todo.foreign != [] && s == p.todo.foreign[0] && p.live[s] == Pending)
            || (step.CloseNext? && p.todo.Shedding? && p.todo.victims != [] && s == p.todo.victims[0])
            || (step.DropNext? && p.todo.Dropping? && s == p.todo.closing)
            || (step.ShutClose? && p.exit.Stopping? && step.s == s && p.live[s] == Ready)
            || (step.HydrateNext? && p.todo.Claimed? && p.todo.claimed != [] && s == p.todo.claimed[0])
            || (step == LoginReady(s) && p.live[s] == Pending)
            || ((step.DeleteClose? || step.DeleteDrop?) && step.s == s) || step.Crash?
  {
  }

  // A row changes only by the steps that name it.
  lemma RowChange(g: Fleet, w: WorkerId, step: Step, s: SessionId)
    requires Enabled(g, By(w, step)) && s in g.rows
    requires s !in Perform(g, w, step).rows || Perform(g, w, step).rows[s] != g.rows[s]
    ensures var p := g.procs[w];
            || (step.ExpireLogins? && Abandoned(g.rows, g.beats, s, p.cutoff, g.now))
            || (step.FenceNext? && p.todo.Fencing? && p.todo.foreign != [] && p.todo.foreign[0] == s && Usable(p, s))
            || (step.AdoptNext? && p.todo.Adopting? && p.todo.owned != [] && p.todo.owned[0] == s
                && OpenedRows(g.rows, Opening(p, step, g.now), g.now) != g.rows)
            || (step.HydrateNext? && p.todo.Claimed? && p.todo.claimed != [] && p.todo.claimed[0] == s
                && OpenedRows(g.rows, Opening(p, step, g.now), g.now) != g.rows)
            || (step.ReleaseNext? && p.todo.Releasing? && p.todo.closed == s)
            || (step.Claim? && s in Orphans(g.rows, g.beats, p.cutoff))
            || (step.ReleaseRows? && s in Owned(g.rows, w))
            || ((step.LoginProgress? || step.LoginReady? || step.LoginFailed?) && step.s == s && IsPending(g, w, s))
            || (step.DeleteRow? && step.s == s)
  {
    hide LiveAfter, LocksAfter, RetryAfter, BeatsAfter, TodoAfter, ExitAfter, DeletingAfter, NoDup, CanOpen;
    if step.Claim? {
      assert s in Elems(step.claimed);
    }
  }

  // So through a worker's list, or by the steps of a login or a delete.
  lemma RowStep(g: Fleet, w: WorkerId, step: Step, s: SessionId)
    requires Enabled(g, By(w, step)) && s in g.rows
    requires s !in Perform(g, w, step).rows || Perform(g, w, step).rows[s] != g.rows[s]
    ensures || s in Outstanding(g.procs[w].todo)
            || (step.ExpireLogins? && Abandoned(g.rows, g.beats, s, g.procs[w].cutoff, g.now))
            || (step.Claim? && s in Orphans(g.rows, g.beats, g.procs[w].cutoff))
            || (step.ReleaseRows? && s in Owned(g.rows, w))
            || ((step.LoginProgress? || step.LoginReady? || step.LoginFailed? || step.DeleteRow?) && step.s == s)
  {
    hide Allowed, RowsAfter, LiveAfter, LocksAfter, RetryAfter, BeatsAfter, TodoAfter, ExitAfter, DeletingAfter;
    RowChange(g, w, step, s);
  }

  // The login step of one (w, s): still pending means still alone.
  lemma AloneStep(g: Fleet, u: WorkerId, step: Step, w: WorkerId, s: SessionId)
    requires Logins(g) && Enabled(g, By(u, step)) && IsPending(Perform(g, u, step), w, s)
    ensures Alone(Perform(g, u, step), w, s)
  {
    var g' := Perform(g, u, step);
    if step == CreateLogin(s) {
      assert Unused(g, s);
    } else {
      assert IsPending(g, w, s) by { PendingStep(g, u, step, w, s); }
      if s in g'.rows {
        RowOfLogin(g, u, step, w, s);
      }
      forall v | v in g'.procs
        ensures v != w ==> s !in g'.procs[v].live
        ensures s !in Outstanding(g'.procs[v].todo)
      {
        if v == u && s in Outstanding(g'.procs[u].todo) {
          OutstandingStep(g, u, step, s);
        }
        if v != w && s in g'.procs[v].live {
          LiveStep(g, u, step, v, s);
        }
      }
    }
  }

  lemma PendingStep(g: Fleet, u: WorkerId, step: Step, w: WorkerId, s: SessionId)
    requires Enabled(g, By(u, step)) && IsPending(Perform(g, u, step), w, s)
    ensures IsPending(g, w, s) || (step == CreateLogin(s) && u == w)
  {
  }

  lemma RowOfLogin(g: Fleet, u: WorkerId, step: Step, w: WorkerId, s: SessionId)
    requires Enabled(g, By(u, step)) && step != CreateLogin(s) && s in Perform(g, u, step).rows
    requires IsPending(g, w, s) && Alone(g, w, s) && IsPending(Perform(g, u, step), w, s)
    ensures Perform(g, u, step).rows[s].status != Authorized && Perform(g, u, step).rows[s].owner == Some(w)
  {
    hide LocksAfter, RetryAfter, BeatsAfter, TodoAfter, ExitAfter, DeletingAfter, NoDup, Lists, MayShed, MayClaim, CanOpen;
    assert s in g.rows;
    if Perform(g, u, step).rows[s] != g.rows[s] {
      RowStep(g, u, step, s);
    }
  }

  lemma InvStep(g: Fleet, a: Action)
    requires Inv(g) && Enabled(g, a)
    ensures Inv(Apply(g, a))
  {
    ExclusiveStep(g, a);
    var g' := Apply(g, a);
    forall w, s | IsPending(g', w, s)
      ensures Alone(g', w, s)
    {
      if a.By? {
        AloneStep(g, a.w, a.step, w, s);
      } else {
        assert IsPending(g, w, s);
      }
    }
  }

  // Every reachable state satisfies the invariant.
  lemma {:induction false} InvRun(g: Fleet, run: seq<Action>)
    requires Inv(g) && IsRun(g, run)
    ensures Inv(After(g, run))
    decreases |run|
  {
    if run != [] {
      InvStep(g, run[0]);
      InvRun(Apply(g, run[0]), run[1..]);
    }
  }

  lemma InitialInv(g: Fleet)
    requires Initial(g)
    ensures Inv(g)
  {
  }

  // --- heartbeats ---

  ghost predicate FreshThroughout(g: Fleet, run: seq<Action>, h: WorkerId)
    requires IsRun(g, run)
    decreases |run|
  {
    Fresh(g, h) && (run != [] ==> FreshThroughout(Apply(g, run[0]), run[1..], h))
  }

  // --- a waiting login is not taken away ---

  // Steps that are not the login's own progress or end, nor the end of its worker.
  predicate LeavesLogin(a: Action, h: WorkerId, s: SessionId) {
    a.By? ==>
      match a.step
      case LoginProgress(x, _) => x != s
      case LoginReady(x) => x != s
      case LoginFailed(x) => x != s
      case DeleteClose(x, _) => x != s
      case DeleteDrop(x) => x != s
      case DeleteRow(x) => x != s
      case Crash => a.w != h
      case _ => true
  }

  lemma WaitingLoginStep(g: Fleet, a: Action, h: WorkerId, s: SessionId)
    requires Inv(g) && Enabled(g, a) && Fresh(g, h) && LeavesLogin(a, h, s)
    requires IsPending(g, h, s) && s in g.rows && Waiting(g.rows[s].status)
    ensures IsPending(Apply(g, a), h, s)
    ensures s in Apply(g, a).rows && Apply(g, a).rows[s] == g.rows[s]
  {
    assert Alone(g, h, s);
    if a.By? {
      if s !in Apply(g, a).rows || Apply(g, a).rows[s] != g.rows[s] {
        RowStep(g, a.w, a.step, s);
      }
      if a.w == h {
        StaysPending(g, h, a.step, s);
      }
    }
  }

  lemma StaysPending(g: Fleet, h: WorkerId, step: Step, s: SessionId)
    requires Enabled(g, By(h, step)) && LeavesLogin(By(h, step), h, s)
    requires IsPending(g, h, s) && Alone(g, h, s)
    ensures IsPending(Perform(g, h, step), h, s)
  {
    hide Allowed, RowsAfter, BeatsAfter, LiveAfter, RetryAfter, LocksAfter, TodoAfter, ExitAfter, DeletingAfter;
    assert s !in Outstanding(g.procs[h].todo);
    hide Alone;
    if !IsPending(Perform(g, h, step), h, s) {
      EntryStep(g, h, step, s);
    }
  }

  // While its worker's heartbeat is fresh, a login waiting for input keeps its
  // row (owner, status and all) and its live entry, whatever any worker's
  // reconcile pass does.
  lemma {:induction false} WaitingLoginKept(g: Fleet, run: seq<Action>, h: WorkerId, s: SessionId)
    requires Inv(g) && IsRun(g, run) && FreshThroughout(g, run, h)
    requires forall a :: a in run ==> LeavesLogin(a, h, s)
    requires IsPending(g, h, s) && s in g.rows && Waiting(g.rows[s].status)
    ensures IsPending(After(g, run), h, s)
    ensures s in After(g, run).rows && After(g, run).rows[s] == g.rows[s]
    decreases |run|
  {
    if run != [] {
      InvStep(g, run[0]);
      WaitingLoginStep(g, run[0], h, s);
      WaitingLoginKept(Apply(g, run[0]), run[1..], h, s);
    }
  }

  // --- the active holder wins ---

  // w is between picking s to shed and releasing its row.
  predicate MidShed(p: Proc, s: SessionId) {
    (p.todo.Shedding? || p.todo.Dropping? || p.todo.Releasing?) && s in Outstanding(p.todo)
  }

  // w still has a client for s that it was told to close.
  predicate HasClosed(p: Proc, s: SessionId) {
    s in p.live && p.live[s] == Closed
  }

  // h holds s and is not shutting down, no worker is about to let go of its row or
  // has a closed client of it left, and h is not about to open it a second time.
  ghost predicate Holding(g: Fleet, h: WorkerId, s: SessionId) {
    && IsReady(g, h, s) && IsAuthorized(g.rows, s) && g.procs[h].exit.Running?
    && (g.procs[h].todo.Claimed? ==> s !in Outstanding(g.procs[h].todo))
    && forall w :: w in g.procs ==> !MidShed(g.procs[w], s) && !HasClosed(g.procs[w], s)
  }

  ghost predicate Settled(g: Fleet, h: WorkerId, s: SessionId) {
    Holding(g, h, s) && OwnedBy(g.rows, s, h)
  }

  // Steps by which the holder itself lets go, or the session ends.
  predicate KeepsHolding(a: Action, h: WorkerId, s: SessionId) {
    a.By? ==>
      match a.step
      case StartShed(victims) => a.w != h || s !in victims
      case DeleteClose(x, _) => x != s
      case DeleteDrop(x) => x != s
      case DeleteRow(x) => x != s
      case BeginShutdown => a.w != h
      case Crash => a.w != h
      case _ => true
  }

  lemma NotOrphan(g: Fleet, h: WorkerId, w: WorkerId, s: SessionId)
    requires Cutoffs(g) && Fresh(g, h) && OwnedBy(g.rows, s, h)
    requires w in g.procs && !g.procs[w].todo.Idle?
    ensures s !in Orphans(g.rows, g.beats, g.procs[w].cutoff)
  {
  }

  // An entry that nothing on its worker's list names is kept, unless it is shut
  // down, deleted, a login's or its worker's that crashes.
  lemma EntryStays(g: Fleet, w: WorkerId, step: Step, s: SessionId)
    requires Enabled(g, By(w, step)) && IsReady(g, w, s) && !MidShed(g.procs[w], s) && g.procs[w].exit.Running?
    requires g.procs[w].todo.Claimed? ==> s !in Outstanding(g.procs[w].todo)
    requires !step.Crash? && ((step.DeleteClose? || step.DeleteDrop?) ==> step.s != s)
    ensures IsReady(Perform(g, w, step), w, s)
  {
    hide Allowed, RowsAfter, BeatsAfter, LiveAfter, RetryAfter, LocksAfter, TodoAfter, ExitAfter, DeletingAfter;
    if !IsReady(Perform(g, w, step), w, s) {
      EntryStep(g, w, step, s);
    }
  }

  lemma StaysReady(g: Fleet, w: WorkerId, step: Step, h: WorkerId, s: SessionId)
    requires Enabled(g, By(w, step)) && KeepsHolding(By(w, step), h, s) && Holding(g, h, s)
    ensures IsReady(Perform(g, w, step), h, s)
  {
    hide Allowed, RowsAfter, BeatsAfter, LiveAfter, RetryAfter, LocksAfter, TodoAfter, ExitAfter, DeletingAfter;
    if w == h {
      assert !MidShed(g.procs[h], s);
      hide Holding, Perform;
      EntryStays(g, h, step, s);
    }
  }

  // Nobody else has a usable client of a held session.
  lemma OnlyHolderUses(g: Fleet, w: WorkerId, h: WorkerId, s: SessionId)
    requires Exclusive(g) && IsReady(g, h, s) && w in g.procs && w != h
    ensures Usable(g.procs[w], s) <==> HasClosed(g.procs[w], s)
  {
    assert !IsReady(g, w, s);
  }

  // A shed of s is begun only with a usable client of it.
  lemma ShedFrom(g: Fleet, w: WorkerId, step: Step, s: SessionId)
    requires Enabled(g, By(w, step)) && MidShed(Perform(g, w, step).procs[w], s)
    ensures || MidShed(g.procs[w], s)
            || (step.StartShed? && s in step.victims && Usable(g.procs[w], s))
  {
    hide RowsAfter, BeatsAfter, RetryAfter, LocksAfter, LiveAfter, ExitAfter, DeletingAfter, NoDup, Lists, CanOpen, MayClaim;
    if step.StartShed? {
      assert s in Elems(step.victims);
    }
  }

  // No step of the pass can shed s but the holder's own: peers shed only what
  // they have a usable client for.
  lemma NobodyMidShed(g: Fleet, w: WorkerId, step: Step, h: WorkerId, s: SessionId)
    requires Exclusive(g) && Enabled(g, By(w, step)) && KeepsHolding(By(w, step), h, s) && Holding(g, h, s)
    ensures !MidShed(Perform(g, w, step).procs[w], s)
  {
    hide Allowed, MidShed, RowsAfter, BeatsAfter, RetryAfter, LocksAfter, LiveAfter, TodoAfter, ExitAfter, DeletingAfter;
    assert !HasClosed(g.procs[w], s) && !MidShed(g.procs[w], s);
    if MidShed(Perform(g, w, step).procs[w], s) {
      ShedFrom(g, w, step, s);
      OnlyHolderUses(g, w, h, s);
    }
  }

  // A client becomes a closed one only where it was open.
  lemma ClosedFrom(g: Fleet, w: WorkerId, step: Step, s: SessionId)
    requires Enabled(g, By(w, step)) && HasClosed(Perform(g, w, step).procs[w], s)
    ensures || HasClosed(g.procs[w], s)
            || (IsReady(g, w, s)
                && ((step.CloseNext? && g.procs[w].todo.victims[0] == s)
                    || (step.DeleteClose? && step.s == s)
                    || (step.ShutClose? && step.s == s)))
  {
    hide RowsAfter, BeatsAfter, RetryAfter, LocksAfter, TodoAfter;
  }

  lemma NobodyClosed(g: Fleet, w: WorkerId, step: Step, h: WorkerId, s: SessionId)
    requires Exclusive(g) && Enabled(g, By(w, step)) && KeepsHolding(By(w, step), h, s) && Holding(g, h, s)
    ensures !HasClosed(Perform(g, w, step).procs[w], s)
  {
    hide LiveAfter, RowsAfter, BeatsAfter, RetryAfter, LocksAfter, TodoAfter, ExitAfter, DeletingAfter;
    assert !HasClosed(g.procs[w], s) && !MidShed(g.procs[w], s);
    assert IsReady(g, w, s) ==> w == h;
    if HasClosed(Perform(g, w, step).procs[w], s) {
      ClosedFrom(g, w, step, s);
    }
  }

  // Nobody can open the directory of a session that is held, its holder least
  // of all.
  lemma NotOpened(g: Fleet, w: WorkerId, step: Step, h: WorkerId, s: SessionId)
    requires Exclusive(g) && Enabled(g, By(w, step)) && Holding(g, h, s)
    ensures OpenedRows(g.rows, Opening(g.procs[w], step, g.now), g.now) == g.rows
            || Opening(g.procs[w], step, g.now).value.0 != s
  {
  }

  // A held row changes only by a claim, by its holder's fencing, or when the
  // worker it names shuts down.
  lemma HeldRow(g: Fleet, w: WorkerId, step: Step, h: WorkerId, s: SessionId)
    requires Inv(g) && Enabled(g, By(w, step)) && KeepsHolding(By(w, step), h, s) && Holding(g, h, s)
    ensures IsAuthorized(Perform(g, w, step).rows, s)
    ensures || Perform(g, w, step).rows[s] == g.rows[s]
            || (step.Claim? && s in Orphans(g.rows, g.beats, g.procs[w].cutoff))
            || (step.FenceNext? && w == h && g.procs[w].todo.foreign[0] == s)
            || (step.ReleaseRows? && OwnedBy(g.rows, s, w))
  {
    hide Allowed, RowsAfter, LiveAfter, LocksAfter, RetryAfter, BeatsAfter, TodoAfter, ExitAfter, DeletingAfter;
    if s !in Perform(g, w, step).rows || Perform(g, w, step).rows[s] != g.rows[s] {
      assert !IsPending(g, w, s) by { assert IsPending(g, w, s) ==> Alone(g, w, s); }
      RowChange(g, w, step, s);
      NotOpened(g, w, step, h, s);
      assert !MidShed(g.procs[w], s) && !HasClosed(g.procs[w], s);
      if w != h {
        OnlyHolderUses(g, w, h, s);
      }
      StatusKept(g, w, step, s);
    }
  }

  // Owners change without the status.
  lemma StatusKept(g: Fleet, w: WorkerId, step: Step, s: SessionId)
    requires Enabled(g, By(w, step)) && IsAuthorized(g.rows, s)
    requires step.Claim? || step.FenceNext? || step.ReleaseRows?
    ensures IsAuthorized(Perform(g, w, step).rows, s)
  {
  }

  lemma HoldingStep(g: Fleet, a: Action, h: WorkerId, s: SessionId)
    requires Inv(g) && Enabled(g, a) && KeepsHolding(a, h, s) && Holding(g, h, s)
    requires OwnedBy(g.rows, s, h) ==> Fresh(g, h)
    requires a.By? && a.w == h && a.step.Claim? ==> OwnedBy(g.rows, s, h)
    ensures Holding(Apply(g, a), h, s)
    ensures OwnedBy(g.rows, s, h) ==> OwnedBy(Apply(g, a).rows, s, h)
    ensures OwnedBy(g.rows, s, h) && !(a.By? && a.w == h) ==> Apply(g, a).rows[s] == g.rows[s]
  {
    if a.By? {
      var g' := Apply(g, a);
      StaysReady(g, a.w, a.step, h, s);
      HeldRow(g, a.w, a.step, h, s);
      if a.step.Claim? && OwnedBy(g.rows, s, h) {
        NotOrphan(g, h, a.w, s);
      }
      forall w | w in g'.procs
        ensures !MidShed(g'.procs[w], s) && !HasClosed(g'.procs[w], s)
      {
        assert !MidShed(g.procs[w], s) && !HasClosed(g.procs[w], s);
        NobodyMidShed(g, a.w, a.step, h, s);
        NobodyClosed(g, a.w, a.step, h, s);
      }
      if a.w == h && g'.procs[h].todo.Claimed? && s in Outstanding(g'.procs[h].todo) {
        OutstandingStep(g, h, a.step, s);
      }
    }
  }

  // Along a run, the row of s changes at no step but the holder's own.
  ghost predicate OnlyHolderWrites(g: Fleet, run: seq<Action>, h: WorkerId, s: SessionId)
    requires IsRun(g, run)
    decreases |run|
  {
    run != [] ==>
      && s in g.rows && s in Apply(g, run[0]).rows
      && (!(run[0].By? && run[0].w == h) ==> Apply(g, run[0]).rows[s] == g.rows[s])
      && OnlyHolderWrites(Apply(g, run[0]), run[1..], h, s)
  }

  // Once settled, a row stays with its holder until the holder sheds, deletes,
  // shuts down or lapses; and no step of a peer changes it at all.
  lemma {:induction false} ActiveHolderKeeps(g: Fleet, run: seq<Action>, h: WorkerId, s: SessionId)
    requires Inv(g) && IsRun(g, run) && FreshThroughout(g, run, h)
    requires forall a :: a in run ==> KeepsHolding(a, h, s)
    requires Settled(g, h, s)
    ensures Settled(After(g, run), h, s)
    ensures OnlyHolderWrites(g, run, h, s)
    decreases |run|
  {
    if run != [] {
      InvStep(g, run[0]);
      HoldingStep(g, run[0], h, s);
      ActiveHolderKeeps(Apply(g, run[0]), run[1..], h, s);
    }
  }

  // The holder is fencing and s is still on its list.
  predicate Fences(g: Fleet, h: WorkerId, s: SessionId) {
    h in g.procs && g.procs[h].todo.Fencing? && s in g.procs[h].todo.foreign
  }

  lemma FencingStep(g: Fleet, a: Action, h: WorkerId, s: SessionId)
    requires Inv(g) && Enabled(g, a) && Fresh(g, h) && KeepsHolding(a, h, s) && Holding(g, h, s)
    requires Fences(g, h, s)
    ensures Holding(Apply(g, a), h, s)
    ensures Fences(Apply(g, a), h, s) || OwnedBy(Apply(g, a).rows, s, h)
  {
    HoldingStep(g, a, h, s);
  }

  // From a session on its fencing list, a holder that finishes fencing owns it,
  // whatever the other workers did to the row meanwhile.
  lemma {:induction false} FencingWins(g: Fleet, run: seq<Action>, h: WorkerId, s: SessionId)
    requires Inv(g) && IsRun(g, run) && FreshThroughout(g, run, h)
    requires forall a :: a in run ==> KeepsHolding(a, h, s)
    requires Holding(g, h, s) && Fences(g, h, s)
    ensures Fences(After(g, run), h, s) || Settled(After(g, run), h, s)
    decreases |run|
  {
    if run != [] {
      InvStep(g, run[0]);
      FencingStep(g, run[0], h, s);
      if OwnedBy(Apply(g, run[0]).rows, s, h) {
        ActiveHolderKeeps(Apply(g, run[0]), run[1..], h, s);
      } else {
        FencingWins(Apply(g, run[0]), run[1..], h, s);
      }
    }
  }

  // One fencing pass: h holds s, but the row names a live peer. Once h has asked
  // for its foreign sessions and worked through the answer, the row is h's
  // again and settled.
  lemma OneFencingPass(g: Fleet, run: seq<Action>, h: WorkerId, peer: WorkerId, s: SessionId)
    requires Inv(g) && IsRun(g, run) && FreshThroughout(g, run, h)
    requires forall a :: a in run ==> KeepsHolding(a, h, s)
    requires Holding(g, h, s) && g.procs[h].todo.Swept?
    requires OwnedBy(g.rows, s, peer) && peer != h && Alive(g.beats, peer, g.procs[h].cutoff)
    requires run != [] && run[0].By? && run[0].w == h && run[0].step.QueryForeign?
    requires !Fences(After(g, run), h, s)
    ensures Settled(After(g, run), h, s)
  {
    var g1 := Apply(g, run[0]);
    assert s in Elems(run[0].step.foreign);
    InvStep(g, run[0]);
    HoldingStep(g, run[0], h, s);
    FencingWins(g1, run[1..], h, s);
  }

  // --- why nobody else may be shedding or have a closed client ---

  // While a holder is ready, fresh and in the registry, these are the steps of a
  // peer that change its row: a release the peer had begun before losing it, and
  // fencing on the strength of a client the peer has closed and not dropped yet.
  lemma PeerChangesRowOnlyBy(g: Fleet, h: WorkerId, s: SessionId, w: WorkerId, step: Step)
    requires Inv(g) && IsReady(g, h, s) && IsAuthorized(g.rows, s) && OwnedBy(g.rows, s, h) && Fresh(g, h)
    requires w != h && Enabled(g, By(w, step)) && step != DeleteRow(s)
    ensures (s !in Perform(g, w, step).rows || Perform(g, w, step).rows[s] != g.rows[s])
            <==> || (step.ReleaseNext? && g.procs[w].todo.closed == s)
                 || (step.FenceNext? && g.procs[w].todo.foreign[0] == s && HasClosed(g.procs[w], s))
  {
    hide LiveAfter, LocksAfter, RetryAfter, BeatsAfter, TodoAfter, ExitAfter, DeletingAfter, NoDup;
    OnlyHolderUses(g, w, h, s);
    if s !in Perform(g, w, step).rows || Perform(g, w, step).rows[s] != g.rows[s] {
      assert !IsPending(g, w, s) by { assert IsPending(g, w, s) ==> Alone(g, w, s); }
      if step.Claim? {
        NotOrphan(g, h, w, s);
      }
      RowStep(g, w, step, s);
    }
  }

  // --- clients that are closed and not dropped yet ---

  // w is on its way to drop its entry of s: it sheds or deletes it, or shuts down.
  predicate Leaving(p: Proc, s: SessionId) {
    (p.todo.Dropping? && p.todo.closing == s) || s in p.deleting || !p.exit.Running?
  }

  ghost predicate ClosedAreLeaving(g: Fleet) {
    forall w, s :: w in g.procs && HasClosed(g.procs[w], s) ==> Leaving(g.procs[w], s)
  }

  lemma ClosedStep(g: Fleet, w: WorkerId, step: Step, s: SessionId)
    requires ClosedAreLeaving(g) && Enabled(g, By(w, step))
    requires HasClosed(Perform(g, w, step).procs[w], s)
    ensures Leaving(Perform(g, w, step).procs[w], s)
  {
    hide RowsAfter, BeatsAfter, RetryAfter, LocksAfter, Lists, IsClaim, CanOpen, Unused;
    assert HasClosed(g.procs[w], s) ==> Leaving(g.procs[w], s);
    ClosedFrom(g, w, step, s);
  }

  lemma {:induction false} ClosedRun(g: Fleet, run: seq<Action>)
    requires ClosedAreLeaving(g) && IsRun(g, run)
    ensures ClosedAreLeaving(After(g, run))
    decreases |run|
  {
    if run != [] {
      var g' := Apply(g, run[0]);
      forall w, s | w in g'.procs && HasClosed(g'.procs[w], s)
        ensures Leaving(g'.procs[w], s)
      {
        if run[0].By? && run[0].w == w {
          ClosedStep(g, w, run[0].step, s);
        }
      }
      ClosedRun(g', run[1..]);
    }
  }

  // So of all the workers whose readyClient() returns a client for s, at most one
  // has it open, and every other one is shedding or deleting s or shutting down.
  lemma OthersAreLeaving(g: Fleet, run: seq<Action>, v: WorkerId, w: WorkerId, s: SessionId)
    requires NothingHeld(g) && IsRun(g, run) && v != w
    requires v in After(g, run).procs && Usable(After(g, run).procs[v], s)
    requires w in After(g, run).procs && Usable(After(g, run).procs[w], s)
    ensures Leaving(After(g, run).procs[v], s) || Leaving(After(g, run).procs[w], s)
    ensures IsReady(After(g, run), v, s) ==> Leaving(After(g, run).procs[w], s)
  {
    ExclusiveRun(g, run);
    ClosedRun(g, run);
    var e := After(g, run);
    assert HasClosed(e.procs[v], s) ==> Leaving(e.procs[v], s);
    assert HasClosed(e.procs[w], s) ==> Leaving(e.procs[w], s);
    assert !(IsReady(e, v, s) && IsReady(e, w, s));
  }
}
