/** Where the code falls short of "the active holder wins": a peer caught between
    closing a client and releasing its row, and a worker that claims a session it
    holds itself. Each with the run that leads there from workers just started, and
    with the exact step that does the harm. */
module Races {
  import opened Common
  import opened Registry
  import opened Fleet
  import opened Ownership

  // --- runs, piece by piece ---

  predicate Leads(g: Fleet, run: seq<Action>, g': Fleet) {
    IsRun(g, run) && After(g, run) == g'
  }

  lemma One(g: Fleet, a: Action)
    requires Enabled(g, a)
    ensures Leads(g, [a], Apply(g, a))
  {
    assert [a][1..] == [];
  }

  lemma {:induction false} Then(g: Fleet, first: seq<Action>, mid: Fleet, second: seq<Action>, end: Fleet)
    requires Leads(g, first, mid) && Leads(mid, second, end)
    ensures Leads(g, first + second, end)
    decreases |first|
  {
    hide Enabled, Apply;
    if first == [] {
      assert first + second == second;
    } else {
      Then(Apply(g, first[0]), first[1..], mid, second, end);
      assert (first + second)[1..] == first[1..] + second;
    }
  }

  function With(g: Fleet, w: WorkerId, p: Proc): Fleet {
    g.(procs := g.procs[w := p])
  }

  // A step of a running worker, by what it does to the parts.
  lemma Does(g: Fleet, w: WorkerId, step: Step, p: Proc, rows: Rows, locks: map<SessionId, WorkerId>)
    requires w in g.procs && Allowed(g, w, step)
    requires RowsAfter(g, w, step) == rows && BeatsAfter(g, w, step) == g.beats && LocksAfter(g, w, step) == locks
    requires LiveAfter(g, g.procs[w], step) == p.live && RetryAfter(g, g.procs[w], step) == p.retry
    requires p == g.procs[w].(live := p.live, retry := p.retry, todo := TodoAfter(g, w, step),
                              cutoff := if step.BeginPass? then g.now - WORKER_STALE else g.procs[w].cutoff)
    requires g.procs[w].exit == Running && !step.BeginShutdown? && !step.ReleaseRows?
    requires !step.DeleteClose? && !step.Crash?
    ensures Leads(g, [By(w, step)], With(g, w, p).(rows := rows, locks := locks))
  {
    hide Allowed, RowsAfter, BeatsAfter, LocksAfter, LiveAfter, RetryAfter, TodoAfter, IsRun, After;
    assert Perform(g, w, step) == With(g, w, p).(rows := rows, locks := locks);
    One(g, By(w, step));
  }

  // A step that changes nothing but its worker's own record.
  lemma Local(g: Fleet, w: WorkerId, step: Step, p: Proc)
    requires w in g.procs && Allowed(g, w, step)
    requires RowsAfter(g, w, step) == g.rows && BeatsAfter(g, w, step) == g.beats && LocksAfter(g, w, step) == g.locks
    requires LiveAfter(g, g.procs[w], step) == p.live && RetryAfter(g, g.procs[w], step) == p.retry
    requires p == g.procs[w].(live := p.live, retry := p.retry, todo := TodoAfter(g, w, step),
                              cutoff := if step.BeginPass? then g.now - WORKER_STALE else g.procs[w].cutoff)
    requires g.procs[w].exit == Running && !step.BeginShutdown? && !step.ReleaseRows?
    requires !step.DeleteClose? && !step.Crash?
    ensures Leads(g, [By(w, step)], With(g, w, p))
  {
    hide Allowed, RowsAfter, BeatsAfter, LocksAfter, LiveAfter, RetryAfter, TodoAfter, Leads;
    Does(g, w, step, p, g.rows, g.locks);
    assert With(g, w, p).(rows := g.rows, locks := g.locks) == With(g, w, p);
  }

  function OpeningMoves(w: WorkerId, owned: seq<SessionId>): seq<Action> {
    [By(w, BeginPass)] + [By(w, ExpireLogins)] + [By(w, QueryForeign([]))] + [By(w, QueryOwned(owned))]
  }

  predicate NoLogins(rows: Rows) {
    forall s :: s in rows ==> !Waiting(rows[s].status)
  }

  lemma DoExpire(g: Fleet, w: WorkerId)
    requires w in g.procs && g.procs[w].todo == Started && g.procs[w].exit == Running && NoLogins(g.rows)
    ensures Leads(g, [By(w, ExpireLogins)], With(g, w, g.procs[w].(todo := Swept)))
  {
    assert ExpireStale(g.rows, g.beats, g.procs[w].cutoff, g.now) == g.rows;
    Local(g, w, ExpireLogins, g.procs[w].(todo := Swept));
  }

  lemma DoForeign(g: Fleet, w: WorkerId)
    requires w in g.procs && g.procs[w].todo == Swept && g.procs[w].exit == Running
    requires Foreign(g.rows, g.beats, w, g.procs[w].live.Keys, g.procs[w].cutoff) == {}
    ensures Leads(g, [By(w, QueryForeign([]))], With(g, w, g.procs[w].(todo := Fencing([]))))
  {
    NoElems<SessionId>([]);
    Local(g, w, QueryForeign([]), g.procs[w].(todo := Fencing([])));
  }

  lemma DoBegin(g: Fleet, w: WorkerId)
    requires w in g.procs && g.procs[w].todo == Idle && g.procs[w].exit == Running
    ensures Leads(g, [By(w, BeginPass)],
                  With(g, w, g.procs[w].(cutoff := g.now - WORKER_STALE, todo := Started)))
  {
    Local(g, w, BeginPass, g.procs[w].(cutoff := g.now - WORKER_STALE, todo := Started));
  }

  lemma DoOwned(g: Fleet, w: WorkerId, owned: seq<SessionId>)
    requires w in g.procs && g.procs[w].todo == Fencing([]) && g.procs[w].exit == Running
    requires Lists(owned, Adoptable(g.rows, w))
    ensures Leads(g, [By(w, QueryOwned(owned))], With(g, w, g.procs[w].(todo := Adopting(owned))))
  {
    Local(g, w, QueryOwned(owned), g.procs[w].(todo := Adopting(owned)));
  }

  // The first statements of a pass that finds no login to expire and nothing to
  // fence.
  lemma PassOpens(g: Fleet, w: WorkerId, owned: seq<SessionId>)
    requires w in g.procs && g.procs[w].todo == Idle && g.procs[w].exit == Running
    requires NoLogins(g.rows) && Lists(owned, Adoptable(g.rows, w))
    requires Foreign(g.rows, g.beats, w, g.procs[w].live.Keys, g.now - WORKER_STALE) == {}
    ensures Leads(g, OpeningMoves(w, owned),
                  With(g, w, g.procs[w].(cutoff := g.now - WORKER_STALE, todo := Adopting(owned))))
  {
    hide Leads, Foreign, ExpireStale, Adoptable, Lists;
    var p := g.procs[w].(cutoff := g.now - WORKER_STALE);
    var g2, g3, g4 := With(g, w, p.(todo := Swept)), With(g, w, p.(todo := Fencing([]))), With(g, w, p.(todo := Adopting(owned)));
    BeginsAndExpires(g, w);
    DoForeign(g2, w);
    WithTwice(g, w, p.(todo := Swept), p.(todo := Fencing([])));
    DoOwned(g3, w, owned);
    WithTwice(g, w, p.(todo := Fencing([])), p.(todo := Adopting(owned)));
    hide With;
    Then(g, [By(w, BeginPass)] + [By(w, ExpireLogins)], g2, [By(w, QueryForeign([]))], g3);
    Then(g, [By(w, BeginPass)] + [By(w, ExpireLogins)] + [By(w, QueryForeign([]))], g3, [By(w, QueryOwned(owned))], g4);
  }

  lemma WithTwice(g: Fleet, w: WorkerId, p: Proc, q: Proc)
    ensures With(With(g, w, p), w, q) == With(g, w, q)
  {
    assert g.procs[w := p][w := q] == g.procs[w := q];
  }

  lemma BeginsAndExpires(g: Fleet, w: WorkerId)
    requires w in g.procs && g.procs[w].todo == Idle && g.procs[w].exit == Running && NoLogins(g.rows)
    ensures Leads(g, [By(w, BeginPass)] + [By(w, ExpireLogins)],
                  With(g, w, g.procs[w].(cutoff := g.now - WORKER_STALE, todo := Swept)))
  {
    hide Leads, ExpireStale;
    var p := g.procs[w].(cutoff := g.now - WORKER_STALE);
    var g1 := With(g, w, p.(todo := Started));
    DoBegin(g, w);
    DoExpire(g1, w);
    WithTwice(g, w, p.(todo := Started), p.(todo := Swept));
    Then(g, [By(w, BeginPass)], g1, [By(w, ExpireLogins)], With(g, w, p.(todo := Swept)));
  }

  // An adoption or hydration that comes to nothing: the session is held already,
  // or cannot be prepared.
  lemma DoAdoptNothing(g: Fleet, w: WorkerId)
    requires w in g.procs && g.procs[w].todo.Adopting? && g.procs[w].todo.owned != [] && g.procs[w].exit == Running
    ensures Leads(g, [By(w, AdoptNext(Unprepared))],
                  With(g, w, g.procs[w].(todo := Adopting(g.procs[w].todo.owned[1..]))))
  {
    Local(g, w, AdoptNext(Unprepared), g.procs[w].(todo := Adopting(g.procs[w].todo.owned[1..])));
  }

  lemma DoHydrateNothing(g: Fleet, w: WorkerId)
    requires w in g.procs && g.procs[w].todo.Claimed? && g.procs[w].todo.claimed != [] && g.procs[w].exit == Running
    ensures Leads(g, [By(w, HydrateNext(Unprepared))],
                  With(g, w, g.procs[w].(todo := Claimed(g.procs[w].todo.claimed[1..]))))
  {
    Local(g, w, HydrateNext(Unprepared), g.procs[w].(todo := Claimed(g.procs[w].todo.claimed[1..])));
  }

  lemma DoAdopt(g: Fleet, w: WorkerId)
    requires w in g.procs && g.procs[w].todo.Adopting? && g.procs[w].todo.owned != [] && g.procs[w].exit == Running
    requires var s := g.procs[w].todo.owned[0];
             && s !in g.procs[w].live && g.procs[w].retry == map[] && s !in g.locks
             && WithStatus(g.rows, s, Authorized, g.now) == g.rows
    ensures var p, s := g.procs[w], g.procs[w].todo.owned[0];
            Leads(g, [By(w, AdoptNext(Opened))],
                  With(g, w, p.(live := p.live[s := Ready], todo := Adopting(p.todo.owned[1..]))).(locks := g.locks[s := w]))
  {
    var p, s := g.procs[w], g.procs[w].todo.owned[0];
    assert Opening(p, AdoptNext(Opened), g.now) == Some((s, Opened));
    assert p.retry - {s} == p.retry;
    One(g, By(w, AdoptNext(Opened)));
  }

  lemma DoLoad(g: Fleet, w: WorkerId, mine: nat, total: nat, alive: nat)
    requires w in g.procs && g.procs[w].todo == Adopting([]) && g.procs[w].exit == Running
    requires |Owned(g.rows, w)| == mine && |AllAuthorized(g.rows)| == total
    requires |LiveWorkers(g.beats, g.procs[w].cutoff)| == alive
    ensures Leads(g, [By(w, ReadLoad)], With(g, w, g.procs[w].(todo := Loaded(mine, total, alive))))
  {
    Local(g, w, ReadLoad, g.procs[w].(todo := Loaded(mine, total, alive)));
  }

  lemma DoEnd(g: Fleet, w: WorkerId)
    requires w in g.procs && Allowed(g, w, EndPass) && g.procs[w].exit == Running
    ensures Leads(g, [By(w, EndPass)], With(g, w, g.procs[w].(todo := Idle)))
  {
    Local(g, w, EndPass, g.procs[w].(todo := Idle));
  }

  // --- claiming one's own session ---

  // The claim loop puts a fresh entry over one already there: a holder that
  // hydrates its own claimed session keeps the client exactly when it does not get
  // as far as opening it.
  lemma SelfClaimLosesIff(g: Fleet, w: WorkerId, s: SessionId, result: OpenResult)
    requires Exclusive(g) && IsReady(g, w, s) && Enabled(g, By(w, HydrateNext(result)))
    ensures !IsReady(Perform(g, w, HydrateNext(result)), w, s)
       <==> g.procs[w].todo.claimed[0] == s && RetryReady(g.procs[w], s, g.now) && result != Unprepared
    // What is lost is out of everybody's reach: its directory stays locked.
    ensures !IsReady(Perform(g, w, HydrateNext(result)), w, s) ==>
              var g' := Perform(g, w, HydrateNext(result));
              s in g'.locks && g'.locks[s] == w && !CanOpen(g', s, Opened) && s !in g'.procs[w].live
  {
    assert s in g.locks;
  }

  // A holder whose heartbeat stays fresh and whom the row names never has its own
  // session on its list of claims.
  lemma FreshNeverClaimsOwn(g: Fleet, run: seq<Action>, h: WorkerId, s: SessionId)
    requires Inv(g) && IsRun(g, run) && FreshThroughout(g, run, h)
    requires forall a :: a in run ==> KeepsHolding(a, h, s)
    requires Settled(g, h, s)
    ensures h in After(g, run).procs && IsReady(After(g, run), h, s)
    ensures After(g, run).procs[h].todo.Claimed? ==> s !in After(g, run).procs[h].todo.claimed
  {
    hide IsRun, FreshThroughout, KeepsHolding, Inv, OnlyHolderWrites;
    ActiveHolderKeeps(g, run, h, s);
    assert Holding(After(g, run), h, s);
  }

  const NEW_PROC := Proc(map[], map[], 10, 0, Idle, {}, Running)

  // Two workers that have just started and beaten once.
  function JustStarted(a: WorkerId, b: WorkerId, rows: Rows): Fleet {
    Fleet(rows, map[a := 0, b := 0], map[a := NEW_PROC, b := NEW_PROC], map[], 0)
  }

  function Mine(w: WorkerId): Row {
    Row(Authorized, Some(w), 0, true)
  }

  // a has adopted s, which is its share, and rests.
  function Adopted(a: WorkerId, b: WorkerId, s: SessionId, t: SessionId): Fleet {
    With(JustStarted(a, b, map[s := Mine(a), t := Mine(b)]), a,
         NEW_PROC.(live := map[s := Ready], cutoff := -WORKER_STALE)).(locks := map[s := a])
  }

  lemma OwnedOne(rows: Rows, w: WorkerId, s: SessionId)
    requires s in rows && rows[s].status == Authorized && rows[s].owner == Some(w) && rows[s].openable
    requires forall x :: x in rows && x != s ==> rows[x].owner != Some(w)
    ensures Owned(rows, w) == {s} && Adoptable(rows, w) == {s} && Lists([s], Adoptable(rows, w))
  {
    assert Elems([s]) == {s};
  }

  lemma TwoAuthorized(rows: Rows, s: SessionId, t: SessionId)
    requires s != t && rows.Keys == {s, t} && IsAuthorized(rows, s) && IsAuthorized(rows, t)
    ensures |AllAuthorized(rows)| == 2
  {
    assert AllAuthorized(rows) == {s, t};
  }

  lemma BothAlive(a: WorkerId, b: WorkerId, cutoff: int)
    requires a != b
    ensures |LiveWorkers(map[a := 0, b := 0], cutoff)| == if cutoff < 0 then 2 else 0
  {
    assert LiveWorkers(map[a := 0, b := 0], cutoff) == if cutoff < 0 then {a, b} else {};
  }

  function AdoptPass(a: WorkerId, s: SessionId): seq<Action> {
    OpeningMoves(a, [s]) + [By(a, AdoptNext(Opened))] + [By(a, ReadLoad)] + [By(a, EndPass)]
  }

  lemma AdoptRun(a: WorkerId, b: WorkerId, s: SessionId, t: SessionId)
    requires a != b && s != t
    ensures Leads(JustStarted(a, b, map[s := Mine(a), t := Mine(b)]), AdoptPass(a, s), Adopted(a, b, s, t))
  {
    hide Leads, Lists, Allowed, Apply;
    var rows := map[s := Mine(a), t := Mine(b)];
    var g := JustStarted(a, b, rows);
    OwnedOne(rows, a, s);
    PassOpens(g, a, [s]);
    var p := NEW_PROC.(cutoff := -WORKER_STALE);
    var g1 := With(g, a, p.(todo := Adopting([s])));
    DoAdopt(g1, a);
    assert [s][1..] == [];
    var g2 := With(g, a, p.(live := map[s := Ready], todo := Adopting([]))).(locks := map[s := a]);
    assert With(g1, a, p.(live := map[s := Ready], todo := Adopting([]))).(locks := map[s := a]) == g2;
    RestAfterAdopting(g2, a, b, s, t);
    var g3 := Adopted(a, b, s, t);
    assert With(g2, a, p.(live := map[s := Ready])) == g3;
    hide With, OpeningMoves;
    Then(g, OpeningMoves(a, [s]), g1, [By(a, AdoptNext(Opened))], g2);
    Then(g, OpeningMoves(a, [s]) + [By(a, AdoptNext(Opened))], g2, [By(a, ReadLoad)] + [By(a, EndPass)], g3);
    assert OpeningMoves(a, [s]) + [By(a, AdoptNext(Opened))] + ([By(a, ReadLoad)] + [By(a, EndPass)]) == AdoptPass(a, s);
  }

  lemma RestAfterAdopting(g: Fleet, a: WorkerId, b: WorkerId, s: SessionId, t: SessionId)
    requires a != b && s != t && a in g.procs
    requires g.rows == map[s := Mine(a), t := Mine(b)] && g.beats == map[a := 0, b := 0]
    requires g.procs[a] == NEW_PROC.(live := map[s := Ready], cutoff := -WORKER_STALE, todo := Adopting([]))
    ensures Leads(g, [By(a, ReadLoad)] + [By(a, EndPass)], With(g, a, g.procs[a].(todo := Idle)))
  {
    hide Leads;
    OwnedOne(g.rows, a, s);
    TwoAuthorized(g.rows, s, t);
    BothAlive(a, b, -WORKER_STALE);
    DoLoad(g, a, 1, 2, 2);
    var g1 := With(g, a, g.procs[a].(todo := Loaded(1, 2, 2)));
    DoEnd(g1, a);
    var g2 := With(g, a, g.procs[a].(todo := Idle));
    assert With(g1, a, g1.procs[a].(todo := Idle)) == g2;
    Then(g, [By(a, ReadLoad)], g1, [By(a, EndPass)], g2);
  }

  // Forty seconds without a heartbeat later, a pass of a finds nobody alive and
  // claims the older session: its own.
  function ClaimPass(a: WorkerId, s: SessionId): seq<Action> {
    [Tick(40 * SECOND)] + OpeningMoves(a, [s]) + [By(a, AdoptNext(Unprepared))] + [By(a, ReadLoad)] + [By(a, Claim([s]))]
  }

  function ClaimedOwn(a: WorkerId, b: WorkerId, s: SessionId, t: SessionId): Fleet {
    var g := Adopted(a, b, s, t);
    With(g, a, NEW_PROC.(live := map[s := Ready], cutoff := 10 * SECOND, todo := Claimed([s])))
      .(now := 40 * SECOND, rows := map[s := Mine(a).(updatedAt := 40 * SECOND), t := Mine(b)])
  }

  lemma ClaimRun(a: WorkerId, b: WorkerId, s: SessionId, t: SessionId)
    requires a != b && s != t
    ensures Leads(Adopted(a, b, s, t), ClaimPass(a, s), ClaimedOwn(a, b, s, t))
  {
    hide Leads, Lists, OpeningMoves, RowsAfter, LocksAfter, LiveAfter, RetryAfter, TodoAfter, ExitAfter;
    var rows := map[s := Mine(a), t := Mine(b)];
    var g := Adopted(a, b, s, t);
    var g0 := g.(now := 40 * SECOND);
    One(g, Tick(40 * SECOND));
    OwnedOne(rows, a, s);
    PassOpens(g0, a, [s]);
    var p := NEW_PROC.(live := map[s := Ready], cutoff := 10 * SECOND);
    var g1 := With(g0, a, p.(todo := Adopting([s])));
    DoAdoptNothing(g1, a);
    assert [s][1..] == [];
    var g2 := With(g0, a, p.(todo := Adopting([])));
    WithTwice(g0, a, p.(todo := Adopting([s])), p.(todo := Adopting([])));
    TwoAuthorized(rows, s, t);
    BothAlive(a, b, 10 * SECOND);
    DoLoad(g2, a, 1, 2, 0);
    var g3 := With(g0, a, p.(todo := Loaded(1, 2, 0)));
    WithTwice(g0, a, p.(todo := Adopting([])), p.(todo := Loaded(1, 2, 0)));
    OwnClaim(g3, a, b, s, t);
    var g4 := ClaimedOwn(a, b, s, t);
    hide With, ClaimedOwn, Adopted;
    Then(g, [Tick(40 * SECOND)], g0, OpeningMoves(a, [s]), g1);
    Then(g, [Tick(40 * SECOND)] + OpeningMoves(a, [s]), g1, [By(a, AdoptNext(Unprepared))], g2);
    Then(g, [Tick(40 * SECOND)] + OpeningMoves(a, [s]) + [By(a, AdoptNext(Unprepared))], g2, [By(a, ReadLoad)], g3);
    Then(g, [Tick(40 * SECOND)] + OpeningMoves(a, [s]) + [By(a, AdoptNext(Unprepared))] + [By(a, ReadLoad)], g3,
         [By(a, Claim([s]))], g4);
  }

  lemma OwnClaim(g: Fleet, a: WorkerId, b: WorkerId, s: SessionId, t: SessionId)
    requires a != b && s != t
    requires g == With(Adopted(a, b, s, t), a,
                       NEW_PROC.(live := map[s := Ready], cutoff := 10 * SECOND, todo := Loaded(1, 2, 0)))
                    .(now := 40 * SECOND)
    ensures Leads(g, [By(a, Claim([s]))], ClaimedOwn(a, b, s, t))
  {
    OwnClaimAllowed(g, a, b, s, t);
    AssignOwn(a, b, s, t);
    var p := NEW_PROC.(live := map[s := Ready], cutoff := 10 * SECOND, todo := Claimed([s]));
    var rows := map[s := Mine(a).(updatedAt := 40 * SECOND), t := Mine(b)];
    hide Allowed, Leads, Assign, Mine;
    Does(g, a, Claim([s]), p, rows, g.locks);
  }

  lemma AssignOwn(a: WorkerId, b: WorkerId, s: SessionId, t: SessionId)
    requires s != t
    ensures Assign(map[s := Mine(a), t := Mine(b)], Elems([s]), a, 40 * SECOND)
         == map[s := Mine(a).(updatedAt := 40 * SECOND), t := Mine(b)]
  {
    assert Elems([s]) == {s};
  }

  lemma OwnClaimAllowed(g: Fleet, a: WorkerId, b: WorkerId, s: SessionId, t: SessionId)
    requires a != b && s != t
    requires a in g.procs && g.rows == map[s := Mine(a), t := Mine(b)] && g.beats == map[a := 0, b := 0]
    requires g.procs[a] == NEW_PROC.(live := map[s := Ready], cutoff := 10 * SECOND, todo := Loaded(1, 2, 0))
    ensures Allowed(g, a, Claim([s]))
  {
    assert Orphans(g.rows, g.beats, 10 * SECOND) == {s, t};
    assert Elems([s]) == {s};
    assert ClaimLimit(g.procs[a]) == 1;
  }

  // So it happens: from workers that have just started there is a run in which a
  // claims the session it holds, and the next step drops the only reference to an
  // open client.
  lemma SelfClaimHappens(a: WorkerId, b: WorkerId, s: SessionId, t: SessionId)
    requires a != b && s != t
    ensures var g := JustStarted(a, b, map[s := Mine(a), t := Mine(b)]);
            var e := ClaimedOwn(a, b, s, t);
            && Initial(g) && Leads(g, AdoptPass(a, s) + ClaimPass(a, s), e)
            && IsReady(e, a, s) && Enabled(e, By(a, HydrateNext(Locked)))
            && !IsReady(Perform(e, a, HydrateNext(Locked)), a, s)
            && !CanOpen(Perform(e, a, HydrateNext(Locked)), s, Opened)
  {
    var g := JustStarted(a, b, map[s := Mine(a), t := Mine(b)]);
    var e := ClaimedOwn(a, b, s, t);
    assert Exclusive(e);
    SelfClaimLosesIff(e, a, s, Locked);
    hide Leads, Adopted, ClaimedOwn, AdoptPass, ClaimPass;
    AdoptRun(a, b, s, t);
    ClaimRun(a, b, s, t);
    Then(g, AdoptPass(a, s), Adopted(a, b, s, t), ClaimPass(a, s), e);
  }

  // --- shedding a session somebody else holds by now ---

  // a lost the row of s while its heartbeat lapsed and is about to shed the
  // client it still has open; b owns the row and is about to adopt it.
  ghost predicate CaughtMidShed(g: Fleet, a: WorkerId, b: WorkerId, s: SessionId) {
    && Inv(g) && a != b && b in g.procs
    && IsReady(g, a, s) && g.procs[a].todo == Shedding([s])
    && g.procs[b].todo == Adopting([s]) && s !in g.procs[b].live && s !in g.procs[b].retry
    && OwnedBy(g.rows, s, b) && IsAuthorized(g.rows, s) && Fresh(g, b)
  }

  function ShedRace(a: WorkerId, b: WorkerId): seq<Action> {
    [By(a, CloseNext(true))] + [By(b, AdoptNext(Opened))] + [By(a, DropNext)] + [By(a, ReleaseNext)]
  }

  // a closes the client, b adopts the session and holds it while a's readyClient()
  // still returns the closed one, and then a's release takes the row from b although
  // b is fresh, ready and its owner.
  lemma MidShedTakesTheRow(g: Fleet, a: WorkerId, b: WorkerId, s: SessionId)
    requires CaughtMidShed(g, a, b, s)
    ensures IsRun(g, ShedRace(a, b)[..2])
    ensures var both := After(g, ShedRace(a, b)[..2]);
            IsReady(both, b, s) && a in both.procs && Usable(both.procs[a], s) && OwnedBy(both.rows, s, b)
    ensures IsRun(g, ShedRace(a, b))
    ensures IsReady(After(g, ShedRace(a, b)), b, s) && Fresh(After(g, ShedRace(a, b)), b)
    ensures s in After(g, ShedRace(a, b)).rows && After(g, ShedRace(a, b)).rows[s].owner == None
  {
    ClosedForB(g, a, b, s);
    hide Allowed, RowsAfter, BeatsAfter, LiveAfter, RetryAfter, LocksAfter, TodoAfter, ExitAfter, WithStatus, IsRun, After;
    var g1 := Perform(g, a, CloseNext(true));
    AdoptedByB(g1, b, s);
    var g2 := Perform(g1, b, AdoptNext(Opened));
    assert g2.procs[a] == g1.procs[a];
    StatusKeeps(g1.rows, s, g1.now);
    DroppedByA(g2, a, b, s);
    var g3 := Perform(g2, a, DropNext);
    ReleasedByA(g3, a, b, s);
    var g4 := Perform(g3, a, ReleaseNext);
    One(g, By(a, CloseNext(true)));
    One(g1, By(b, AdoptNext(Opened)));
    One(g2, By(a, DropNext));
    One(g3, By(a, ReleaseNext));
    Then(g, [By(a, CloseNext(true))], g1, [By(b, AdoptNext(Opened))], g2);
    Then(g, [By(a, CloseNext(true))] + [By(b, AdoptNext(Opened))], g2, [By(a, DropNext)], g3);
    Then(g, [By(a, CloseNext(true))] + [By(b, AdoptNext(Opened))] + [By(a, DropNext)], g3, [By(a, ReleaseNext)], g4);
    assert ShedRace(a, b)[..2] == [By(a, CloseNext(true))] + [By(b, AdoptNext(Opened))];
  }

  lemma StatusKeeps(rows: Rows, s: SessionId, now: int)
    requires s in rows
    ensures var after := WithStatus(rows, s, Authorized, now);
            after.Keys == rows.Keys && after[s].owner == rows[s].owner
  {
  }

  lemma ClosedForB(g: Fleet, a: WorkerId, b: WorkerId, s: SessionId)
    requires CaughtMidShed(g, a, b, s)
    ensures Enabled(g, By(a, CloseNext(true)))
    ensures var g1 := Perform(g, a, CloseNext(true));
      && g1.rows == g.rows && g1.beats == g.beats && g1.now == g.now && s !in g1.locks
      && a in g1.procs && g1.procs[a].todo == Dropping(s, []) && HasClosed(g1.procs[a], s)
      && b in g1.procs && g1.procs[b] == g.procs[b]
  {
    assert s in g.locks && g.locks[s] == a;
  }

  lemma AdoptedByB(g: Fleet, b: WorkerId, s: SessionId)
    requires b in g.procs && g.procs[b].todo == Adopting([s]) && s !in g.procs[b].live && s !in g.procs[b].retry
    requires s !in g.locks && s in g.rows
    ensures Enabled(g, By(b, AdoptNext(Opened)))
    ensures var g2 := Perform(g, b, AdoptNext(Opened));
      && IsReady(g2, b, s) && g2.rows == WithStatus(g.rows, s, Authorized, g.now) && g2.beats == g.beats && g2.now == g.now
      && forall w :: w != b && w in g.procs ==> w in g2.procs && g2.procs[w] == g.procs[w]
  {
  }

  lemma DroppedByA(g: Fleet, a: WorkerId, b: WorkerId, s: SessionId)
    requires a in g.procs && a != b && g.procs[a].todo == Dropping(s, []) && IsReady(g, b, s)
    ensures Enabled(g, By(a, DropNext))
    ensures var g3 := Perform(g, a, DropNext);
      && IsReady(g3, b, s) && g3.rows == g.rows && g3.beats == g.beats && g3.now == g.now
      && a in g3.procs && g3.procs[a].todo == Releasing(s, [])
  {
  }

  lemma ReleasedByA(g: Fleet, a: WorkerId, b: WorkerId, s: SessionId)
    requires a in g.procs && a != b && g.procs[a].todo == Releasing(s, []) && s in g.rows && IsReady(g, b, s)
    ensures Enabled(g, By(a, ReleaseNext))
    ensures var g4 := Perform(g, a, ReleaseNext);
      IsReady(g4, b, s) && g4.rows == WithOwner(g.rows, s, None, g.now) && g4.beats == g.beats && g4.now == g.now
  {
  }

  // The run that leads there. First a, with both sessions and a live peer, starts
  // shedding one of them.
  function BothMine(w: WorkerId, s: SessionId, t: SessionId, at: int): Rows {
    map[s := Mine(w).(updatedAt := at), t := Mine(w).(updatedAt := at)]
  }

  function ShedPass(a: WorkerId, s: SessionId, t: SessionId): seq<Action> {
    OpeningMoves(a, [s, t]) + [By(a, AdoptNext(Opened))] + [By(a, AdoptNext(Opened))] + [By(a, ReadLoad)] + [By(a, StartShed([s]))]
  }

  function Sheds(s: SessionId, t: SessionId): Proc {
    NEW_PROC.(live := map[s := Ready, t := Ready], cutoff := -WORKER_STALE, todo := Shedding([s]))
  }

  function SheddingA(a: WorkerId, b: WorkerId, s: SessionId, t: SessionId): Fleet {
    With(JustStarted(a, b, BothMine(a, s, t, 0)), a, Sheds(s, t)).(locks := map[s := a, t := a])
  }

  lemma OwnedBoth(w: WorkerId, v: WorkerId, s: SessionId, t: SessionId, at: int)
    requires s != t && v != w
    ensures var rows := BothMine(w, s, t, at);
      && |Owned(rows, w)| == 2 && |AllAuthorized(rows)| == 2 && NoLogins(rows)
      && Lists([s, t], Adoptable(rows, w)) && Lists([t, s], Adoptable(rows, w)) && Adoptable(rows, w) == {s, t}
      && Owned(rows, v) == {} && Lists([], Adoptable(rows, v))
  {
    var rows := BothMine(w, s, t, at);
    assert Owned(rows, w) == {s, t} && AllAuthorized(rows) == {s, t};
    assert Elems([s, t]) == {s, t} && Elems([t, s]) == {s, t};
    NoElems<SessionId>([]);
  }

  lemma ShedRun(a: WorkerId, b: WorkerId, s: SessionId, t: SessionId)
    requires a != b && s != t
    ensures Leads(JustStarted(a, b, BothMine(a, s, t, 0)), ShedPass(a, s, t), SheddingA(a, b, s, t))
  {
    hide Leads, Lists, Allowed, Apply, OpeningMoves;
    var g := JustStarted(a, b, BothMine(a, s, t, 0));
    OwnedBoth(a, b, s, t, 0);
    PassOpens(g, a, [s, t]);
    var p := NEW_PROC.(cutoff := -WORKER_STALE);
    var g1 := With(g, a, p.(todo := Adopting([s, t])));
    AdoptsBoth(g1, a, s, t);
    var g2 := With(g, a, p.(live := map[s := Ready, t := Ready], todo := Adopting([]))).(locks := map[s := a, t := a]);
    assert With(g1, a, p.(live := map[s := Ready, t := Ready], todo := Adopting([]))).(locks := map[s := a, t := a]) == g2;
    StartsShedding(g2, a, b, s, t);
    var g3 := SheddingA(a, b, s, t);
    assert With(g2, a, Sheds(s, t)) == g3;
    hide With;
    Then(g, OpeningMoves(a, [s, t]), g1, [By(a, AdoptNext(Opened))] + [By(a, AdoptNext(Opened))], g2);
    Then(g, OpeningMoves(a, [s, t]) + ([By(a, AdoptNext(Opened))] + [By(a, AdoptNext(Opened))]), g2,
         [By(a, ReadLoad)] + [By(a, StartShed([s]))], g3);
    assert OpeningMoves(a, [s, t]) + ([By(a, AdoptNext(Opened))] + [By(a, AdoptNext(Opened))])
           + ([By(a, ReadLoad)] + [By(a, StartShed([s]))]) == ShedPass(a, s, t);
  }

  lemma AdoptsBoth(g: Fleet, a: WorkerId, s: SessionId, t: SessionId)
    requires s != t && a in g.procs && g.procs[a] == NEW_PROC.(cutoff := -WORKER_STALE, todo := Adopting([s, t]))
    requires g.rows == BothMine(a, s, t, 0) && g.now == 0 && g.locks == map[]
    ensures Leads(g, [By(a, AdoptNext(Opened))] + [By(a, AdoptNext(Opened))],
                  With(g, a, g.procs[a].(live := map[s := Ready, t := Ready], todo := Adopting([])))
                    .(locks := map[s := a, t := a]))
  {
    hide Leads;
    assert [s, t][1..] == [t] && [t][1..] == [];
    DoAdopt(g, a);
    var p := g.procs[a];
    var g1 := With(g, a, p.(live := map[s := Ready], todo := Adopting([t]))).(locks := map[s := a]);
    DoAdopt(g1, a);
    var g2 := With(g, a, p.(live := map[s := Ready, t := Ready], todo := Adopting([]))).(locks := map[s := a, t := a]);
    assert map[s := Ready][t := Ready] == map[s := Ready, t := Ready] && map[s := a][t := a] == map[s := a, t := a];
    assert With(g1, a, p.(live := map[s := Ready, t := Ready], todo := Adopting([]))).(locks := map[s := a, t := a]) == g2;
    Then(g, [By(a, AdoptNext(Opened))], g1, [By(a, AdoptNext(Opened))], g2);
  }

  lemma StartsShedding(g: Fleet, a: WorkerId, b: WorkerId, s: SessionId, t: SessionId)
    requires a != b && s != t && a in g.procs
    requires g.procs[a] == NEW_PROC.(live := map[s := Ready, t := Ready], cutoff := -WORKER_STALE, todo := Adopting([]))
    requires g.rows == BothMine(a, s, t, 0) && g.beats == map[a := 0, b := 0]
    ensures Leads(g, [By(a, ReadLoad)] + [By(a, StartShed([s]))], With(g, a, Sheds(s, t)))
  {
    hide Leads;
    OwnedBoth(a, b, s, t, 0);
    BothAlive(a, b, -WORKER_STALE);
    DoLoad(g, a, 2, 2, 2);
    var p := g.procs[a].(todo := Loaded(2, 2, 2));
    var g1 := With(g, a, p);
    assert UsableSessions(p) == {s, t} && Elems([s]) == {s};
    Local(g1, a, StartShed([s]), Sheds(s, t));
    assert With(g1, a, Sheds(s, t)) == With(g, a, Sheds(s, t));
    Then(g, [By(a, ReadLoad)], g1, [By(a, StartShed([s]))], With(g, a, Sheds(s, t)));
  }

  // Then a's heartbeat lapses while b's does not, and b claims both sessions but
  // cannot prepare either at first.
  function Claimer(todo: Todo): Proc {
    NEW_PROC.(cutoff := 10 * SECOND, todo := todo)
  }

  // b's proc and the rows vary; a stands still in the middle of its shed.
  function Lapsed(a: WorkerId, b: WorkerId, s: SessionId, t: SessionId, rows: Rows, todo: Todo): Fleet {
    Fleet(rows, map[a := 0, b := 40 * SECOND], map[a := Sheds(s, t), b := Claimer(todo)],
          map[s := a, t := a], 40 * SECOND)
  }

  lemma OneAlive(a: WorkerId, b: WorkerId)
    requires a != b
    ensures |LiveWorkers(map[a := 0, b := 40 * SECOND], 10 * SECOND)| == 1
  {
    assert LiveWorkers(map[a := 0, b := 40 * SECOND], 10 * SECOND) == {b};
  }

  lemma LapseRun(a: WorkerId, b: WorkerId, s: SessionId, t: SessionId)
    requires a != b && s != t
    ensures Leads(SheddingA(a, b, s, t), [Tick(40 * SECOND)] + [By(b, Heartbeat)] + OpeningMoves(b, []),
                  Lapsed(a, b, s, t, BothMine(a, s, t, 0), Adopting([])))
  {
    hide Leads, Lists, OpeningMoves, RowsAfter, LocksAfter, LiveAfter, RetryAfter, TodoAfter, ExitAfter;
    var g := SheddingA(a, b, s, t);
    var g2 := g.(now := 40 * SECOND, beats := map[a := 0, b := 40 * SECOND]);
    OnlyBeats(a, b, s, t);
    OwnedBoth(a, b, s, t, 0);
    PassOpens(g2, b, []);
    var g3 := Lapsed(a, b, s, t, BothMine(a, s, t, 0), Adopting([]));
    assert With(g2, b, Claimer(Adopting([]))) == g3;
    hide Apply, Allowed, With;
    Then(g, [Tick(40 * SECOND)] + [By(b, Heartbeat)], g2, OpeningMoves(b, []), g3);
  }

  lemma OnlyBeats(a: WorkerId, b: WorkerId, s: SessionId, t: SessionId)
    requires a != b && s != t
    ensures var g := SheddingA(a, b, s, t);
            Leads(g, [Tick(40 * SECOND)] + [By(b, Heartbeat)],
                  g.(now := 40 * SECOND, beats := map[a := 0, b := 40 * SECOND]))
  {
    hide Leads, Lists, RowsAfter, LocksAfter, LiveAfter, RetryAfter, TodoAfter, ExitAfter;
    var g := SheddingA(a, b, s, t);
    var g1 := g.(now := 40 * SECOND);
    var g2 := g1.(beats := map[a := 0, b := 40 * SECOND]);
    One(g, Tick(40 * SECOND));
    One(g1, By(b, Heartbeat));
    assert Perform(g1, b, Heartbeat) == g2 by { BeatOnly(g1, b); }
    Then(g, [Tick(40 * SECOND)], g1, [By(b, Heartbeat)], g2);
  }

  lemma BeatOnly(g: Fleet, b: WorkerId)
    requires b in g.procs && g.procs[b].exit == Running
    ensures Perform(g, b, Heartbeat) == g.(beats := g.beats[b := g.now])
  {
    assert g.procs[b := g.procs[b]] == g.procs;
  }

  lemma ClaimBothAllowed(g: Fleet, a: WorkerId, b: WorkerId, s: SessionId, t: SessionId)
    requires a != b && s != t
    requires g == Lapsed(a, b, s, t, BothMine(a, s, t, 0), Loaded(0, 2, 1))
    ensures Allowed(g, b, Claim([s, t]))
    ensures Assign(g.rows, Elems([s, t]), b, g.now) == BothMine(b, s, t, 40 * SECOND)
  {
    assert Orphans(g.rows, g.beats, 10 * SECOND) == {s, t};
    assert Elems([s, t]) == {s, t};
    assert ClaimLimit(g.procs[b]) == 2;
  }

  lemma LapsedNext(a: WorkerId, b: WorkerId, s: SessionId, t: SessionId, rows: Rows, todo: Todo, rows': Rows, todo': Todo)
    requires a != b
    ensures var g := Lapsed(a, b, s, t, rows, todo);
            && With(g, b, Claimer(todo')).(rows := rows', locks := g.locks) == Lapsed(a, b, s, t, rows', todo')
            && (rows == rows' ==> With(g, b, Claimer(todo')) == Lapsed(a, b, s, t, rows', todo'))
            && b in g.procs && g.procs[b] == Claimer(todo)
  {
  }

  lemma LoadAndClaim(a: WorkerId, b: WorkerId, s: SessionId, t: SessionId)
    requires a != b && s != t
    ensures Leads(Lapsed(a, b, s, t, BothMine(a, s, t, 0), Adopting([])), [By(b, ReadLoad)] + [By(b, Claim([s, t]))],
                  Lapsed(a, b, s, t, BothMine(b, s, t, 40 * SECOND), Claimed([s, t])))
  {
    hide Leads;
    var rows, rows' := BothMine(a, s, t, 0), BothMine(b, s, t, 40 * SECOND);
    var g, g1 := Lapsed(a, b, s, t, rows, Adopting([])), Lapsed(a, b, s, t, rows, Loaded(0, 2, 1));
    LoadsNothing(a, b, s, t);
    ClaimsBoth(a, b, s, t);
    hide Lapsed, BothMine;
    Then(g, [By(b, ReadLoad)], g1, [By(b, Claim([s, t]))], Lapsed(a, b, s, t, rows', Claimed([s, t])));
  }

  lemma LoadsNothing(a: WorkerId, b: WorkerId, s: SessionId, t: SessionId)
    requires a != b && s != t
    ensures var rows := BothMine(a, s, t, 0);
            Leads(Lapsed(a, b, s, t, rows, Adopting([])), [By(b, ReadLoad)], Lapsed(a, b, s, t, rows, Loaded(0, 2, 1)))
  {
    hide Leads, With;
    var rows := BothMine(a, s, t, 0);
    OwnedBoth(a, b, s, t, 0);
    OneAlive(a, b);
    DoLoad(Lapsed(a, b, s, t, rows, Adopting([])), b, 0, 2, 1);
    LapsedNext(a, b, s, t, rows, Adopting([]), rows, Loaded(0, 2, 1));
  }

  lemma ClaimsBoth(a: WorkerId, b: WorkerId, s: SessionId, t: SessionId)
    requires a != b && s != t
    ensures Leads(Lapsed(a, b, s, t, BothMine(a, s, t, 0), Loaded(0, 2, 1)), [By(b, Claim([s, t]))],
                  Lapsed(a, b, s, t, BothMine(b, s, t, 40 * SECOND), Claimed([s, t])))
  {
    hide Leads, With;
    var rows, rows' := BothMine(a, s, t, 0), BothMine(b, s, t, 40 * SECOND);
    var g := Lapsed(a, b, s, t, rows, Loaded(0, 2, 1));
    ClaimBothAllowed(g, a, b, s, t);
    LapsedNext(a, b, s, t, rows, Loaded(0, 2, 1), rows', Claimed([s, t]));
    hide Allowed, Assign, BothMine;
    Does(g, b, Claim([s, t]), Claimer(Claimed([s, t])), rows', g.locks);
  }

  lemma HydratesNeither(a: WorkerId, b: WorkerId, s: SessionId, t: SessionId, rows: Rows)
    requires a != b
    ensures Leads(Lapsed(a, b, s, t, rows, Claimed([s, t])),
                  [By(b, HydrateNext(Unprepared))] + [By(b, HydrateNext(Unprepared))] + [By(b, EndPass)],
                  Lapsed(a, b, s, t, rows, Idle))
  {
    hide Leads, With;
    var g, g1 := Lapsed(a, b, s, t, rows, Claimed([s, t])), Lapsed(a, b, s, t, rows, Claimed([t]));
    var g2, g3 := Lapsed(a, b, s, t, rows, Claimed([])), Lapsed(a, b, s, t, rows, Idle);
    assert [s, t][1..] == [t] && [t][1..] == [];
    LapsedNext(a, b, s, t, rows, Claimed([s, t]), rows, Claimed([t]));
    LapsedNext(a, b, s, t, rows, Claimed([t]), rows, Claimed([]));
    LapsedNext(a, b, s, t, rows, Claimed([]), rows, Idle);
    hide Lapsed;
    DoHydrateNothing(g, b);
    DoHydrateNothing(g1, b);
    DoEnd(g2, b);
    hide Allowed;
    Then(g, [By(b, HydrateNext(Unprepared))], g1, [By(b, HydrateNext(Unprepared))], g2);
    Then(g, [By(b, HydrateNext(Unprepared))] + [By(b, HydrateNext(Unprepared))], g2, [By(b, EndPass)], g3);
  }

  // In its next pass b has one of them in hand, the one a is shedding.
  lemma NextAdopts(a: WorkerId, b: WorkerId, s: SessionId, t: SessionId)
    requires a != b && s != t
    ensures var rows := BothMine(b, s, t, 40 * SECOND);
            Leads(Lapsed(a, b, s, t, rows, Idle), OpeningMoves(b, [t, s]) + [By(b, AdoptNext(Unprepared))],
                  Lapsed(a, b, s, t, rows, Adopting([s])))
  {
    hide Leads, Lists, OpeningMoves;
    var rows := BothMine(b, s, t, 40 * SECOND);
    var g, g1 := Lapsed(a, b, s, t, rows, Idle), Lapsed(a, b, s, t, rows, Adopting([t, s]));
    OwnedBoth(b, a, s, t, 40 * SECOND);
    PassOpens(g, b, [t, s]);
    assert With(g, b, Claimer(Adopting([t, s]))) == g1;
    assert [t, s][1..] == [s];
    DoAdoptNothing(g1, b);
    var g2 := Lapsed(a, b, s, t, rows, Adopting([s]));
    assert With(g1, b, Claimer(Adopting([s]))) == g2;
    hide Lapsed, With;
    Then(g, OpeningMoves(b, [t, s]), g1, [By(b, AdoptNext(Unprepared))], g2);
  }

  function RunToMidShed(a: WorkerId, b: WorkerId, s: SessionId, t: SessionId): seq<Action> {
    ShedPass(a, s, t) + ([Tick(40 * SECOND)] + [By(b, Heartbeat)] + OpeningMoves(b, []))
    + ([By(b, ReadLoad)] + [By(b, Claim([s, t]))])
    + ([By(b, HydrateNext(Unprepared))] + [By(b, HydrateNext(Unprepared))] + [By(b, EndPass)])
    + (OpeningMoves(b, [t, s]) + [By(b, AdoptNext(Unprepared))])
  }

  // So it happens: a run from workers that have just started leads to a peer caught
  // in mid-shed.
  lemma MidShedHappens(a: WorkerId, b: WorkerId, s: SessionId, t: SessionId)
    requires a != b && s != t
    ensures var g := JustStarted(a, b, BothMine(a, s, t, 0));
            && Initial(g) && IsRun(g, RunToMidShed(a, b, s, t))
            && CaughtMidShed(After(g, RunToMidShed(a, b, s, t)), a, b, s)
  {
    var g := JustStarted(a, b, BothMine(a, s, t, 0));
    var rows, rows' := BothMine(a, s, t, 0), BothMine(b, s, t, 40 * SECOND);
    var e := Lapsed(a, b, s, t, rows', Adopting([s]));
    InitialInv(g);
    assert IsReady(e, a, s) && OwnedBy(e.rows, s, b) && IsAuthorized(e.rows, s) && Fresh(e, b);
    assert e.procs[a].todo == Shedding([s]) && e.procs[b] == Claimer(Adopting([s]));
    AllTheWay(a, b, s, t);
    hide RunToMidShed, Lapsed, Inv;
    InvRun(g, RunToMidShed(a, b, s, t));
  }

  lemma AllTheWay(a: WorkerId, b: WorkerId, s: SessionId, t: SessionId)
    requires a != b && s != t
    ensures Leads(JustStarted(a, b, BothMine(a, s, t, 0)), RunToMidShed(a, b, s, t),
                  Lapsed(a, b, s, t, BothMine(b, s, t, 40 * SECOND), Adopting([s])))
  {
    hide Leads, OpeningMoves, ShedPass, Lapsed, SheddingA, BothMine, JustStarted;
    var g, g1 := JustStarted(a, b, BothMine(a, s, t, 0)), SheddingA(a, b, s, t);
    var rows, rows' := BothMine(a, s, t, 0), BothMine(b, s, t, 40 * SECOND);
    ShedRun(a, b, s, t);
    LapseRun(a, b, s, t);
    LoadAndClaim(a, b, s, t);
    HydratesNeither(a, b, s, t, rows');
    NextAdopts(a, b, s, t);
    var lapse := [Tick(40 * SECOND)] + [By(b, Heartbeat)] + OpeningMoves(b, []);
    var claim := [By(b, ReadLoad)] + [By(b, Claim([s, t]))];
    var fails := [By(b, HydrateNext(Unprepared))] + [By(b, HydrateNext(Unprepared))] + [By(b, EndPass)];
    var again := OpeningMoves(b, [t, s]) + [By(b, AdoptNext(Unprepared))];
    var g2, g3 := Lapsed(a, b, s, t, rows, Adopting([])), Lapsed(a, b, s, t, rows', Claimed([s, t]));
    var g4, g5 := Lapsed(a, b, s, t, rows', Idle), Lapsed(a, b, s, t, rows', Adopting([s]));
    Then(g, ShedPass(a, s, t), g1, lapse, g2);
    Then(g, ShedPass(a, s, t) + lapse, g2, claim, g3);
    Then(g, ShedPass(a, s, t) + lapse + claim, g3, fails, g4);
    Then(g, ShedPass(a, s, t) + lapse + claim + fails, g4, again, g5);
  }

  // --- fencing with a closed client ---

  // a is fencing a session it held when it asked, shuts down at the same time, and
  // has closed the client; b owns the session and holds it.
  ghost predicate CaughtFencing(g: Fleet, a: WorkerId, b: WorkerId, s: SessionId) {
    && Inv(g) && a != b && a in g.procs && HasClosed(g.procs[a], s) && g.procs[a].todo == Fencing([s])
    && IsReady(g, b, s) && OwnedBy(g.rows, s, b) && IsAuthorized(g.rows, s) && Fresh(g, b)
  }

  // Its fencing takes the row back for a client that is closed.
  lemma FencingTakesTheRow(g: Fleet, a: WorkerId, b: WorkerId, s: SessionId)
    requires CaughtFencing(g, a, b, s)
    ensures Enabled(g, By(a, FenceNext))
    ensures var g' := Perform(g, a, FenceNext);
            IsReady(g', b, s) && Fresh(g', b) && OwnedBy(g'.rows, s, a) && !IsReady(g', a, s)
  {
  }

  // Two workers, and the one session.
  function Two(a: WorkerId, b: WorkerId, pa: Proc, pb: Proc, rows: Rows, beat: int, locks: map<SessionId, WorkerId>, now: int): Fleet {
    Fleet(rows, map[a := 0, b := beat], map[a := pa, b := pb], locks, now)
  }

  lemma OfTwo(a: WorkerId, b: WorkerId, pa: Proc, pb: Proc, rows: Rows, beat: int, locks: map<SessionId, WorkerId>, now: int,
              pa': Proc, pb': Proc, rows': Rows, locks': map<SessionId, WorkerId>)
    requires a != b
    ensures var g := Two(a, b, pa, pb, rows, beat, locks, now);
            && a in g.procs && b in g.procs && g.procs[a] == pa && g.procs[b] == pb
            && With(g, a, pa').(rows := rows', locks := locks') == Two(a, b, pa', pb, rows', beat, locks', now)
            && With(g, b, pb').(rows := rows', locks := locks') == Two(a, b, pa, pb', rows', beat, locks', now)
            && With(g, a, pa') == Two(a, b, pa', pb, rows, beat, locks, now)
            && With(g, b, pb') == Two(a, b, pa, pb', rows, beat, locks, now)
  {
    assert map[a := pa, b := pb][a := pa'] == map[a := pa', b := pb];
    assert map[a := pa, b := pb][b := pb'] == map[a := pa, b := pb'];
  }

  function Only(w: WorkerId, s: SessionId, at: int): Rows {
    map[s := Mine(w).(updatedAt := at)]
  }

  lemma OnlyOwned(w: WorkerId, v: WorkerId, s: SessionId, at: int)
    requires v != w
    ensures var rows := Only(w, s, at);
      && Owned(rows, w) == {s} && AllAuthorized(rows) == {s} && NoLogins(rows) && Adoptable(rows, w) == {s}
      && Lists([s], Adoptable(rows, w)) && Owned(rows, v) == {} && Lists([], Adoptable(rows, v))
      && WithStatus(rows, s, Authorized, at) == rows
  {
    assert Elems([s]) == {s};
    NoElems<SessionId>([]);
  }

  function Holder(s: SessionId, cutoff: int, todo: Todo): Proc {
    NEW_PROC.(live := map[s := Ready], cutoff := cutoff, todo := todo)
  }

  // a adopts the session.
  function FirstAdopts(a: WorkerId, s: SessionId): seq<Action> {
    OpeningMoves(a, [s]) + [By(a, AdoptNext(Opened))] + ([By(a, ReadLoad)] + [By(a, EndPass)])
  }

  lemma FirstAdoptsRun(a: WorkerId, b: WorkerId, s: SessionId)
    requires a != b
    ensures Leads(Two(a, b, NEW_PROC, NEW_PROC, Only(a, s, 0), 0, map[], 0), FirstAdopts(a, s),
                  Two(a, b, Holder(s, -WORKER_STALE, Idle), NEW_PROC, Only(a, s, 0), 0, map[s := a], 0))
  {
    hide Leads, Lists, With, Allowed, Apply, OpeningMoves;
    var rows := Only(a, s, 0);
    var p := NEW_PROC.(cutoff := -WORKER_STALE, todo := Adopting([s]));
    var q := Holder(s, -WORKER_STALE, Adopting([]));
    var g := Two(a, b, NEW_PROC, NEW_PROC, rows, 0, map[], 0);
    OnlyOwned(a, b, s, 0);
    OfTwo(a, b, NEW_PROC, NEW_PROC, rows, 0, map[], 0, p, p, rows, map[]);
    PassOpens(g, a, [s]);
    var g1 := Two(a, b, p, NEW_PROC, rows, 0, map[], 0);
    assert [s][1..] == [];
    OfTwo(a, b, p, NEW_PROC, rows, 0, map[], 0, q, q, rows, map[s := a]);
    DoAdopt(g1, a);
    OfTwoLocks(a, b, q, rows, s);
    var g2 := Two(a, b, q, NEW_PROC, rows, 0, map[s := a], 0);
    LoadsAndEnds(g2, a, b, s);
    OfTwo(a, b, q, NEW_PROC, rows, 0, map[s := a], 0, q.(todo := Idle), q, rows, map[s := a]);
    var g3 := Two(a, b, Holder(s, -WORKER_STALE, Idle), NEW_PROC, rows, 0, map[s := a], 0);
    hide Two;
    Then(g, OpeningMoves(a, [s]), g1, [By(a, AdoptNext(Opened))], g2);
    Then(g, OpeningMoves(a, [s]) + [By(a, AdoptNext(Opened))], g2, [By(a, ReadLoad)] + [By(a, EndPass)], g3);
  }

  lemma OfTwoLocks(a: WorkerId, b: WorkerId, q: Proc, rows: Rows, s: SessionId)
    requires a != b
    ensures var p := NEW_PROC.(cutoff := -WORKER_STALE, todo := Adopting([s]));
            With(Two(a, b, p, NEW_PROC, rows, 0, map[], 0), a, q).(locks := map[][s := a])
            == Two(a, b, q, NEW_PROC, rows, 0, map[s := a], 0)
  {
  }

  lemma LoadsAndEnds(g: Fleet, a: WorkerId, b: WorkerId, s: SessionId)
    requires a != b && a in g.procs && g.procs[a] == Holder(s, -WORKER_STALE, Adopting([]))
    requires g.rows == Only(a, s, 0) && g.beats == map[a := 0, b := 0]
    ensures Leads(g, [By(a, ReadLoad)] + [By(a, EndPass)], With(g, a, g.procs[a].(todo := Idle)))
  {
    hide Leads;
    OnlyOwned(a, b, s, 0);
    BothAlive(a, b, -WORKER_STALE);
    DoLoad(g, a, 1, 1, 2);
    var g1 := With(g, a, g.procs[a].(todo := Loaded(1, 1, 2)));
    DoEnd(g1, a);
    var g2 := With(g, a, g.procs[a].(todo := Idle));
    assert With(g1, a, g1.procs[a].(todo := Idle)) == g2;
    Then(g, [By(a, ReadLoad)], g1, [By(a, EndPass)], g2);
  }

  // a's heartbeat lapses, and b claims the session but cannot prepare it at first.

  // The fleet once that has happened: a rests with the client, or does not rest.
  function Taken(a: WorkerId, b: WorkerId, s: SessionId, pa: Proc, todo: Todo): Fleet {
    Two(a, b, pa, Claimer(todo), Only(b, s, 40 * SECOND), 40 * SECOND, map[s := a], 40 * SECOND)
  }

  function Lapsing(a: WorkerId, b: WorkerId, s: SessionId, todo: Todo): Fleet {
    Two(a, b, Holder(s, -WORKER_STALE, Idle), Claimer(todo), Only(a, s, 0), 40 * SECOND, map[s := a], 40 * SECOND)
  }

  lemma SecondOpens(a: WorkerId, b: WorkerId, s: SessionId)
    requires a != b
    ensures Leads(Two(a, b, Holder(s, -WORKER_STALE, Idle), NEW_PROC, Only(a, s, 0), 0, map[s := a], 0),
                  [Tick(40 * SECOND)] + [By(b, Heartbeat)] + OpeningMoves(b, []), Lapsing(a, b, s, Adopting([])))
  {
    hide Leads, Lists, With, OpeningMoves, RowsAfter, LocksAfter, LiveAfter, RetryAfter, TodoAfter, ExitAfter;
    var rows, pa := Only(a, s, 0), Holder(s, -WORKER_STALE, Idle);
    var g := Two(a, b, pa, NEW_PROC, rows, 0, map[s := a], 0);
    var g1 := g.(now := 40 * SECOND);
    var g2 := Two(a, b, pa, NEW_PROC, rows, 40 * SECOND, map[s := a], 40 * SECOND);
    One(g, Tick(40 * SECOND));
    One(g1, By(b, Heartbeat));
    assert Perform(g1, b, Heartbeat) == g2 by { BeatOnly(g1, b); }
    OnlyOwned(a, b, s, 0);
    OfTwo(a, b, pa, NEW_PROC, rows, 40 * SECOND, map[s := a], 40 * SECOND, pa, Claimer(Adopting([])), rows, map[s := a]);
    PassOpens(g2, b, []);
    var g3 := Lapsing(a, b, s, Adopting([]));
    hide Apply, Allowed, Two;
    Then(g, [Tick(40 * SECOND)], g1, [By(b, Heartbeat)], g2);
    Then(g, [Tick(40 * SECOND)] + [By(b, Heartbeat)], g2, OpeningMoves(b, []), g3);
  }

  lemma OneClaimAllowed(g: Fleet, a: WorkerId, b: WorkerId, s: SessionId)
    requires a != b && g == Lapsing(a, b, s, Loaded(0, 1, 1))
    ensures Allowed(g, b, Claim([s]))
    ensures Assign(g.rows, Elems([s]), b, g.now) == Only(b, s, 40 * SECOND)
  {
    assert Orphans(g.rows, g.beats, 10 * SECOND) == {s};
    assert Elems([s]) == {s};
    assert ClaimLimit(g.procs[b]) == 1;
  }

  lemma SecondClaimsOne(a: WorkerId, b: WorkerId, s: SessionId)
    requires a != b
    ensures var pa := Holder(s, -WORKER_STALE, Idle);
            Leads(Lapsing(a, b, s, Adopting([])), [By(b, ReadLoad)] + [By(b, Claim([s]))], Taken(a, b, s, pa, Claimed([s])))
  {
    hide Leads, With;
    var pa, rows := Holder(s, -WORKER_STALE, Idle), Only(a, s, 0);
    var g, g1 := Lapsing(a, b, s, Adopting([])), Lapsing(a, b, s, Loaded(0, 1, 1));
    OnlyOwned(a, b, s, 0);
    OneAlive(a, b);
    OfTwo(a, b, pa, Claimer(Adopting([])), rows, 40 * SECOND, map[s := a], 40 * SECOND, pa, Claimer(Loaded(0, 1, 1)), rows, map[s := a]);
    DoLoad(g, b, 0, 1, 1);
    OneClaimAllowed(g1, a, b, s);
    OfTwo(a, b, pa, Claimer(Loaded(0, 1, 1)), rows, 40 * SECOND, map[s := a], 40 * SECOND,
          pa, Claimer(Claimed([s])), Only(b, s, 40 * SECOND), map[s := a]);
    hide Allowed, Assign, Only;
    Does(g1, b, Claim([s]), Claimer(Claimed([s])), Only(b, s, 40 * SECOND), g1.locks);
    hide Two;
    Then(g, [By(b, ReadLoad)], g1, [By(b, Claim([s]))], Taken(a, b, s, pa, Claimed([s])));
  }

  lemma OfTaken(a: WorkerId, b: WorkerId, s: SessionId, pa: Proc, todo: Todo, pa': Proc, todo': Todo)
    requires a != b
    ensures var g := Taken(a, b, s, pa, todo);
            && a in g.procs && b in g.procs && g.procs[a] == pa && g.procs[b] == Claimer(todo)
            && With(g, b, Claimer(todo')) == Taken(a, b, s, pa, todo')
            && With(g, a, pa') == Taken(a, b, s, pa', todo)
  {
    OfTwo(a, b, pa, Claimer(todo), Only(b, s, 40 * SECOND), 40 * SECOND, map[s := a], 40 * SECOND,
          pa', Claimer(todo'), Only(b, s, 40 * SECOND), map[s := a]);
  }

  lemma SecondEnds(a: WorkerId, b: WorkerId, s: SessionId, pa: Proc)
    requires a != b
    ensures Leads(Taken(a, b, s, pa, Claimed([s])), [By(b, HydrateNext(Unprepared))] + [By(b, EndPass)], Taken(a, b, s, pa, Idle))
  {
    hide Leads, With;
    var g, g1, g2 := Taken(a, b, s, pa, Claimed([s])), Taken(a, b, s, pa, Claimed([])), Taken(a, b, s, pa, Idle);
    assert [s][1..] == [];
    OfTaken(a, b, s, pa, Claimed([s]), pa, Claimed([]));
    OfTaken(a, b, s, pa, Claimed([]), pa, Idle);
    hide Taken;
    DoHydrateNothing(g, b);
    DoEnd(g1, b);
    hide Allowed;
    Then(g, [By(b, HydrateNext(Unprepared))], g1, [By(b, EndPass)], g2);
  }

  // a's next pass finds its session at a live peer.
  function FirstAsks(a: WorkerId, s: SessionId): seq<Action> {
    [By(a, BeginPass)] + [By(a, ExpireLogins)] + [By(a, QueryForeign([s]))]
  }

  lemma FirstAsksRun(a: WorkerId, b: WorkerId, s: SessionId)
    requires a != b
    ensures Leads(Taken(a, b, s, Holder(s, -WORKER_STALE, Idle), Idle), FirstAsks(a, s),
                  Taken(a, b, s, Holder(s, 10 * SECOND, Fencing([s])), Idle))
  {
    hide Leads, With;
    var p, p1 := Holder(s, -WORKER_STALE, Idle), Holder(s, 10 * SECOND, Started);
    var p2, p3 := Holder(s, 10 * SECOND, Swept), Holder(s, 10 * SECOND, Fencing([s]));
    var g, g1, g2, g3 := Taken(a, b, s, p, Idle), Taken(a, b, s, p1, Idle), Taken(a, b, s, p2, Idle), Taken(a, b, s, p3, Idle);
    OfTaken(a, b, s, p, Idle, p1, Idle);
    OfTaken(a, b, s, p1, Idle, p2, Idle);
    OfTaken(a, b, s, p2, Idle, p3, Idle);
    OnlyOwned(b, a, s, 40 * SECOND);
    SeesForeign(g2, a, b, s);
    DoBegin(g, a);
    DoExpire(g1, a);
    hide Taken, Allowed;
    Then(g, [By(a, BeginPass)], g1, [By(a, ExpireLogins)], g2);
    Then(g, [By(a, BeginPass)] + [By(a, ExpireLogins)], g2, [By(a, QueryForeign([s]))], g3);
  }

  lemma SeesForeign(g: Fleet, a: WorkerId, b: WorkerId, s: SessionId)
    requires a != b && g == Taken(a, b, s, Holder(s, 10 * SECOND, Swept), Idle)
    ensures Leads(g, [By(a, QueryForeign([s]))], With(g, a, Holder(s, 10 * SECOND, Fencing([s]))))
  {
    assert Foreign(g.rows, g.beats, a, g.procs[a].live.Keys, 10 * SECOND) == {s};
    assert Elems([s]) == {s};
    Local(g, a, QueryForeign([s]), Holder(s, 10 * SECOND, Fencing([s])));
  }

  // At that moment it is told to shut down, and closes the client.
  function Closing(s: SessionId): Proc {
    Holder(s, 10 * SECOND, Fencing([s])).(live := map[s := Closed], exit := Stopping({}))
  }

  function Freed(a: WorkerId, b: WorkerId, s: SessionId, pb: Proc, locks: map<SessionId, WorkerId>): Fleet {
    Two(a, b, Closing(s), pb, Only(b, s, 40 * SECOND), 40 * SECOND, locks, 40 * SECOND)
  }

  lemma FirstCloses(a: WorkerId, b: WorkerId, s: SessionId)
    requires a != b
    ensures Leads(Taken(a, b, s, Holder(s, 10 * SECOND, Fencing([s])), Idle),
                  [By(a, BeginShutdown)] + [By(a, ShutClose(s, true))], Freed(a, b, s, Claimer(Idle), map[]))
  {
    var p := Holder(s, 10 * SECOND, Fencing([s]));
    var p1 := p.(exit := Stopping({s}));
    var g, g1, g2 := Taken(a, b, s, p, Idle), Taken(a, b, s, p1, Idle), Freed(a, b, s, Claimer(Idle), map[]);
    OfTaken(a, b, s, p, Idle, p1, Idle);
    BeginsShutdown(g, a, p1, s);
    ClosesForShutdown(g1, a, s);
    FreedIs(a, b, s);
    hide Leads, Taken, Freed, Allowed, Perform;
    Then(g, [By(a, BeginShutdown)], g1, [By(a, ShutClose(s, true))], g2);
  }

  lemma BeginsShutdown(g: Fleet, a: WorkerId, p: Proc, s: SessionId)
    requires a in g.procs && g.procs[a] == Holder(s, 10 * SECOND, Fencing([s])) && p == g.procs[a].(exit := Stopping({s}))
    ensures Leads(g, [By(a, BeginShutdown)], With(g, a, p))
  {
    assert (set x | x in g.procs[a].live && g.procs[a].live[x] == Ready) == {s};
    One(g, By(a, BeginShutdown));
    assert Perform(g, a, BeginShutdown) == With(g, a, p);
  }

  lemma ClosesForShutdown(g: Fleet, a: WorkerId, s: SessionId)
    requires a in g.procs && g.procs[a] == Holder(s, 10 * SECOND, Fencing([s])).(exit := Stopping({s}))
    requires g.locks == map[s := a]
    ensures Leads(g, [By(a, ShutClose(s, true))], With(g, a, Closing(s)).(locks := map[]))
  {
    var live := map[s := Closed];
    assert ClosedLive(g.procs[a].live, s) == live;
    var step := ShutClose(s, true);
    var empty: set<SessionId> := {};
    assert (set x | x in g.procs[a].exit.clients && x in live && live[x] == Ready) == empty;
    assert ExitAfter(g, g.procs[a], step) == Stopping({});
    assert LocksAfter(g, a, step) == map[];
    assert LiveAfter(g, g.procs[a], step) == live;
    hide ExitAfter, LocksAfter, LiveAfter;
    One(g, By(a, step));
    assert Perform(g, a, ShutClose(s, true)) == With(g, a, Closing(s)).(locks := map[]);
  }

  lemma FreedIs(a: WorkerId, b: WorkerId, s: SessionId)
    requires a != b
    ensures var g := Taken(a, b, s, Holder(s, 10 * SECOND, Fencing([s])).(exit := Stopping({s})), Idle);
            && a in g.procs && g.locks == map[s := a]
            && With(g, a, Closing(s)).(locks := map[]) == Freed(a, b, s, Claimer(Idle), map[])
  {
  }

  // b adopts what it owns, which is free now.
  function SecondAdopts(b: WorkerId, s: SessionId): seq<Action> {
    OpeningMoves(b, [s]) + [By(b, AdoptNext(Opened))]
  }

  function Adopter(s: SessionId): Proc {
    Claimer(Adopting([])).(live := map[s := Ready])
  }

  lemma SecondAdoptsRun(a: WorkerId, b: WorkerId, s: SessionId)
    requires a != b
    ensures Leads(Freed(a, b, s, Claimer(Idle), map[]), SecondAdopts(b, s), Freed(a, b, s, Adopter(s), map[s := b]))
  {
    hide Leads, Lists, With, OpeningMoves;
    var rows := Only(b, s, 40 * SECOND);
    var g, g1 := Freed(a, b, s, Claimer(Idle), map[]), Freed(a, b, s, Claimer(Adopting([s])), map[]);
    var g2 := Freed(a, b, s, Adopter(s), map[s := b]);
    OnlyOwned(b, a, s, 40 * SECOND);
    OfTwo(a, b, Closing(s), Claimer(Idle), rows, 40 * SECOND, map[], 40 * SECOND,
          Closing(s), Claimer(Adopting([s])), rows, map[]);
    PassOpens(g, b, [s]);
    assert [s][1..] == [];
    OfFreed(a, b, s);
    DoAdopt(g1, b);
    hide Freed, Allowed;
    Then(g, OpeningMoves(b, [s]), g1, [By(b, AdoptNext(Opened))], g2);
  }

  lemma OfFreed(a: WorkerId, b: WorkerId, s: SessionId)
    requires a != b
    ensures var g := Freed(a, b, s, Claimer(Adopting([s])), map[]);
            && b in g.procs && g.procs[b] == Claimer(Adopting([s]))
            && With(g, b, g.procs[b].(live := g.procs[b].live[s := Ready], todo := Adopting([]))).(locks := g.locks[s := b])
               == Freed(a, b, s, Adopter(s), map[s := b])
  {
  }

  function RunToFencing(a: WorkerId, b: WorkerId, s: SessionId): seq<Action> {
    FirstAdopts(a, s) + ([Tick(40 * SECOND)] + [By(b, Heartbeat)] + OpeningMoves(b, []))
    + ([By(b, ReadLoad)] + [By(b, Claim([s]))]) + ([By(b, HydrateNext(Unprepared))] + [By(b, EndPass)])
    + FirstAsks(a, s) + ([By(a, BeginShutdown)] + [By(a, ShutClose(s, true))]) + SecondAdopts(b, s)
  }

  lemma ToFencing(a: WorkerId, b: WorkerId, s: SessionId)
    requires a != b
    ensures Leads(Two(a, b, NEW_PROC, NEW_PROC, Only(a, s, 0), 0, map[], 0), RunToFencing(a, b, s),
                  Freed(a, b, s, Adopter(s), map[s := b]))
  {
    hide Leads, OpeningMoves, Two, Taken, Lapsing, Freed, FirstAdopts, FirstAsks, SecondAdopts, Only, Holder;
    var p, p' := Holder(s, -WORKER_STALE, Idle), Holder(s, 10 * SECOND, Fencing([s]));
    var g := Two(a, b, NEW_PROC, NEW_PROC, Only(a, s, 0), 0, map[], 0);
    var g1 := Two(a, b, p, NEW_PROC, Only(a, s, 0), 0, map[s := a], 0);
    var g2, g3, g4 := Lapsing(a, b, s, Adopting([])), Taken(a, b, s, p, Claimed([s])), Taken(a, b, s, p, Idle);
    var g5, g6 := Taken(a, b, s, p', Idle), Freed(a, b, s, Claimer(Idle), map[]);
    var r1, r2 := FirstAdopts(a, s), [Tick(40 * SECOND)] + [By(b, Heartbeat)] + OpeningMoves(b, []);
    var r3, r4 := [By(b, ReadLoad)] + [By(b, Claim([s]))], [By(b, HydrateNext(Unprepared))] + [By(b, EndPass)];
    var r5, r6 := FirstAsks(a, s), [By(a, BeginShutdown)] + [By(a, ShutClose(s, true))];
    FirstAdoptsRun(a, b, s);
    SecondOpens(a, b, s);
    SecondClaimsOne(a, b, s);
    SecondEnds(a, b, s, p);
    FirstAsksRun(a, b, s);
    FirstCloses(a, b, s);
    SecondAdoptsRun(a, b, s);
    Then(g, r1, g1, r2, g2);
    Then(g, r1 + r2, g2, r3, g3);
    Then(g, r1 + r2 + r3, g3, r4, g4);
    Then(g, r1 + r2 + r3 + r4, g4, r5, g5);
    Then(g, r1 + r2 + r3 + r4 + r5, g5, r6, g6);
    Then(g, r1 + r2 + r3 + r4 + r5 + r6, g6, SecondAdopts(b, s), Freed(a, b, s, Adopter(s), map[s := b]));
  }

  // So it happens: a run from workers that have just started leads to a worker that
  // shuts down in the middle of its fencing, and takes the row from the new holder.
  lemma FencingHappens(a: WorkerId, b: WorkerId, s: SessionId)
    requires a != b
    ensures var g := Two(a, b, NEW_PROC, NEW_PROC, Only(a, s, 0), 0, map[], 0);
            && Initial(g) && IsRun(g, RunToFencing(a, b, s))
            && CaughtFencing(After(g, RunToFencing(a, b, s)), a, b, s)
  {
    var g := Two(a, b, NEW_PROC, NEW_PROC, Only(a, s, 0), 0, map[], 0);
    var e := Freed(a, b, s, Adopter(s), map[s := b]);
    InitialInv(g);
    assert HasClosed(e.procs[a], s) && e.procs[a].todo == Fencing([s]);
    assert IsReady(e, b, s) && OwnedBy(e.rows, s, b) && IsAuthorized(e.rows, s) && Fresh(e, b);
    ToFencing(a, b, s);
    hide RunToFencing, Freed, Inv;
    InvRun(g, RunToFencing(a, b, s));
  }
}
