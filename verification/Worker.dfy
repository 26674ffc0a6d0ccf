/** The worker as its code has it: a Manager that updates its live and retry maps
    in place, over a database and the session directories it shares with its
    peers. A whole reconcile pass is shown to be a run of the fleet's steps, so
    what holds over every run holds for the code. */
module Worker {
  import opened Common
  import opened Registry
  import opened Fleet

  // The statements of internal/store/store.go, each atomic.
  class Database {
    var rows: Rows
    var beats: Beats

    constructor ()
      ensures rows == map[] && beats == map[]
    {
      rows, beats := map[], map[];
    }

    method RegisterWorker(w: WorkerId, now: int)
      modifies this`beats
      ensures beats == old(beats)[w := now]
    {
      beats := beats[w := now];
    }

    method SetSessionOwner(s: SessionId, w: WorkerId, now: int)
      modifies this`rows
      ensures rows == WithOwner(old(rows), s, Some(w), now)
    {
      if s in rows {
        rows := rows[s := rows[s].(owner := Some(w), updatedAt := now)];
      }
    }

    method ReleaseSession(s: SessionId, now: int)
      modifies this`rows
      ensures rows == WithOwner(old(rows), s, None, now)
    {
      if s in rows {
        rows := rows[s := rows[s].(owner := None, updatedAt := now)];
      }
    }

    method UpdateSessionStatus(s: SessionId, status: Status, now: int)
      modifies this`rows
      ensures rows == WithStatus(old(rows), s, status, now)
    {
      if s in rows {
        rows := rows[s := rows[s].(status := status, updatedAt := now)];
      }
    }

    method ExpireStaleLogins(cutoff: int, now: int)
      modifies this`rows
      ensures rows == ExpireStale(old(rows), beats, cutoff, now)
    {
      var rest := rows.Keys;
      var was := rows;
      while rest != {}
        invariant rows.Keys == was.Keys && rest <= was.Keys
        invariant forall s :: s in was ==>
          rows[s] == if s in rest then was[s] else ExpireStale(was, beats, cutoff, now)[s]
        decreases |rest|
      {
        var s :| s in rest;
        if Abandoned(was, beats, s, cutoff, now) {
          rows := rows[s := rows[s].(status := Expired, updatedAt := now)];
        }
        rest := rest - {s};
      }
    }

    method ForeignOwned(w: WorkerId, ids: set<SessionId>, cutoff: int) returns (out: seq<SessionId>)
      ensures Lists(out, Foreign(rows, beats, w, ids, cutoff))
    {
      out := Listing(Foreign(rows, beats, w, ids, cutoff));
    }

    method ListOwned(w: WorkerId) returns (out: seq<SessionId>)
      ensures Lists(out, Adoptable(rows, w))
    {
      out := Listing(Adoptable(rows, w));
    }

    method WorkerLoad(w: WorkerId, cutoff: int) returns (mine: nat, total: nat, alive: nat)
      ensures mine == |Owned(rows, w)| && total == |AllAuthorized(rows)|
      ensures alive == |LiveWorkers(beats, cutoff)|
    {
      mine, total, alive := |Owned(rows, w)|, |AllAuthorized(rows)|, |LiveWorkers(beats, cutoff)|;
    }

    // ORDER BY updated_at LIMIT: the least recently updated orphans first.
    method ClaimOrphans(w: WorkerId, cutoff: int, limit: nat, now: int) returns (ids: seq<SessionId>)
      modifies this`rows
      ensures IsClaim(old(rows), beats, cutoff, limit, ids)
      ensures rows == Assign(old(rows), Elems(ids), w, now)
    {
      ids := Oldest(rows, Orphans(rows, beats, cutoff), limit);
      rows := Assign(rows, Elems(ids), w, now);
    }
  }

  method Listing(s: set<SessionId>) returns (out: seq<SessionId>)
    ensures Lists(out, s)
  {
    out := [];
    var rest := s;
    while rest != {}
      invariant rest <= s && NoDup(out) && Elems(out) == s - rest
      decreases |rest|
    {
      var x :| x in rest;
      OneMore(out, x);
      out := out + [x];
      rest := rest - {x};
    }
  }

  lemma OneMore(ids: seq<SessionId>, s: SessionId)
    requires NoDup(ids) && s !in Elems(ids)
    ensures NoDup(ids + [s]) && Elems(ids + [s]) == Elems(ids) + {s}
  {
  }

  // The least recently updated first, up to the limit.
  method Oldest(rows: Rows, from: set<SessionId>, limit: nat) returns (ids: seq<SessionId>)
    requires from <= rows.Keys
    ensures NoDup(ids) && Elems(ids) <= from && |ids| == Min(limit, |from|)
    ensures forall s, o :: s in Elems(ids) && o in from - Elems(ids) ==> rows[s].updatedAt <= rows[o].updatedAt
  {
    var rest := from;
    ids := [];
    NoElems(ids);
    hide Elems, NoDup;
    while rest != {} && |ids| < limit
      invariant NoDup(ids) && Elems(ids) == from - rest && rest <= from
      invariant |ids| + |rest| == |from| && |ids| <= limit
      invariant forall s, o :: s in Elems(ids) && o in rest ==> rows[s].updatedAt <= rows[o].updatedAt
      decreases |rest|
    {
      var s := OldestOne(rows, rest);
      OneMore(ids, s);
      ids := ids + [s];
      rest := rest - {s};
    }
    assert rest == from - Elems(ids);
  }

  method OldestOne(rows: Rows, ids: set<SessionId>) returns (s: SessionId)
    requires ids != {} && forall x :: x in ids ==> x in rows
    ensures s in ids && forall x :: x in ids ==> rows[s].updatedAt <= rows[x].updatedAt
  {
    s :| s in ids;
    var rest := ids - {s};
    while rest != {}
      invariant s in ids && rest <= ids
      invariant forall x :: x in ids - rest ==> rows[s].updatedAt <= rows[x].updatedAt
      decreases |rest|
    {
      var x :| x in rest;
      if rows[x].updatedAt < rows[s].updatedAt {
        s := x;
      }
      rest := rest - {x};
    }
  }

  // The session directories: opening one takes an exclusive lock.
  class Disk {
    var locks: map<SessionId, WorkerId>

    constructor ()
      ensures locks == map[]
    {
      locks := map[];
    }

    // What opening comes to, given what TDLib would answer were the lock free.
    method Open(s: SessionId, w: WorkerId, answer: OpenResult) returns (result: OpenResult)
      modifies this
      ensures result == if s in old(locks) && (answer == Opened || answer == Unauthorized) then Locked else answer
      ensures locks == if result == Opened then old(locks)[s := w] else old(locks)
    {
      result := answer;
      if s in locks && (answer == Opened || answer == Unauthorized) {
        result := Locked;
      } else if answer == Opened {
        locks := locks[s := w];
      }
    }

    // Closing w's client of s frees the directory, if it is over in time.
    method Close(s: SessionId, w: WorkerId, closed: bool)
      modifies this
      ensures locks == if closed then Unlocked(old(locks), w, s) else old(locks)
    {
      if closed && s in locks && locks[s] == w {
        locks := locks - {s};
      }
    }
  }

  // What TDLib will answer during a pass.
  datatype Tdlib = Tdlib(opens: map<SessionId, OpenResult>, closes: set<SessionId>)

  function AnswerFor(td: Tdlib, s: SessionId): OpenResult {
    if s in td.opens then td.opens[s] else Unprepared
  }

  // The steps a reconcile pass is made of.
  predicate OfPass(step: Step) {
    match step
    case BeginPass => true
    case ExpireLogins => true
    case QueryForeign(_) => true
    case FenceNext => true
    case QueryOwned(_) => true
    case AdoptNext(_) => true
    case ReadLoad => true
    case StartShed(_) => true
    case CloseNext(_) => true
    case DropNext => true
    case ReleaseNext => true
    case Claim(_) => true
    case HydrateNext(_) => true
    case EndPass => true
    case _ => false
  }

  class Manager {
    const id: WorkerId
    const capacity: nat
    const db: Database
    const disk: Disk
    var live: map<SessionId, Entry>
    var retry: map<SessionId, int>

    constructor (id: WorkerId, capacity: nat, db: Database, disk: Disk)
      ensures this.id == id && this.capacity == capacity && this.db == db && this.disk == disk
      ensures live == map[] && retry == map[]
    {
      this.id, this.capacity, this.db, this.disk := id, capacity, db, disk;
      live, retry := map[], map[];
    }

    // The fleet state g is what this worker and its surroundings look like now.
    ghost predicate Sees(g: Fleet, now: int, cutoff: int, todo: Todo)
      reads this, db, disk
    {
      && id in g.procs && g.now == now
      && g.rows == db.rows && g.beats == db.beats && g.locks == disk.locks
      && g.procs[id] == Proc(live, retry, capacity, cutoff, todo, {}, Running)
    }

    // run leads from g to what the worker sees now, by steps of its own pass alone.
    ghost predicate Reached(g: Fleet, run: seq<Action>, now: int, cutoff: int, todo: Todo)
      reads this, db, disk
    {
      && IsRun(g, run) && Sees(After(g, run), now, cutoff, todo)
      && forall a :: a in run ==> a.By? && a.w == id && OfPass(a.step)
    }

    // Entries that fail to open are dropped again, and backed off if transient.
    method RehydrateOne(s: SessionId, td: Tdlib, now: int) returns (result: OpenResult)
      modifies this, db`rows, disk
      ensures CanOpenIn(old(disk.locks), s, result)
      ensures live == OpenedLive(old(live), Some((s, result)))
      ensures db.rows == OpenedRows(old(db.rows), Some((s, result)), now)
      ensures disk.locks == OpenedLocks(old(disk.locks), id, Some((s, result)))
      ensures retry == match result
                       case Locked => old(retry)[s := now + OPEN_BACKOFF]
                       case Unprepared => old(retry)
                       case _ => old(retry) - {s}
    {
      if AnswerFor(td, s) == Unprepared {
        return Unprepared;
      }
      live := live[s := Pending];
      result := disk.Open(s, id, AnswerFor(td, s));
      if result == Opened {
        retry := retry - {s};
        live := live[s := Ready];
        db.UpdateSessionStatus(s, Authorized, now);
      } else {
        live := live - {s};
        if result == Unauthorized {
          retry := retry - {s};
          db.UpdateSessionStatus(s, Expired, now);
        } else {
          retry := retry[s := now + OPEN_BACKOFF];
        }
      }
      assert old(live)[s := Pending] - {s} == old(live) - {s};
    }
  
    // (1) Sessions held here whose row names a live peer: with a usable client the
    // row is taken back, without one the entry goes.
    method Fence(ghost g: Fleet, ghost before: seq<Action>, cutoff: int, now: int) returns (ghost run: seq<Action>)
      requires Reached(g, before, now, cutoff, Swept)
      modifies this`live, db`rows
      ensures Reached(g, run, now, cutoff, Fencing([]))
      ensures before <= run
    {
      var foreign := db.ForeignOwned(id, live.Keys, cutoff);
      ghost var a := By(id, QueryForeign(foreign));
      RunAppend(g, before, a);
      run := before + [a];
      for i := 0 to |foreign|
        invariant Reached(g, run, now, cutoff, Fencing(foreign[i..]))
        invariant before <= run
      {
        var s := foreign[i];
        RunAppend(g, run, By(id, FenceNext));
        if s in live && live[s] != Pending {
          db.SetSessionOwner(s, id, now);
        } else {
          live := live - {s};
        }
        run := run + [By(id, FenceNext)];
        assert foreign[i..][1..] == foreign[i + 1..];
      }
      assert foreign[|foreign|..] == [];
    }

    method AdoptOne(ghost g: Fleet, ghost before: seq<Action>, ids: seq<SessionId>, td: Tdlib, cutoff: int, now: int)
      returns (ghost run: seq<Action>)
      requires ids != [] && Reached(g, before, now, cutoff, Adopting(ids))
      modifies this, db`rows, disk
      ensures Reached(g, run, now, cutoff, Adopting(ids[1..]))
      ensures before <= run
    {
      var s := ids[0];
      var result := Unprepared;
      if s !in live && (s !in retry || now > retry[s]) {
        result := RehydrateOne(s, td, now);
      }
      RunAppend(g, before, By(id, AdoptNext(result)));
      run := before + [By(id, AdoptNext(result))];
    }

    // (2) Hydrate the sessions the registry assigns to this worker that it does
    // not hold yet.
    method AdoptOwned(ghost g: Fleet, ghost before: seq<Action>, td: Tdlib, cutoff: int, now: int)
      returns (ghost run: seq<Action>)
      requires Reached(g, before, now, cutoff, Fencing([]))
      modifies this, db`rows, disk
      ensures Reached(g, run, now, cutoff, Adopting([]))
      ensures before <= run
    {
      var owned := db.ListOwned(id);
      RunAppend(g, before, By(id, QueryOwned(owned)));
      run := before + [By(id, QueryOwned(owned))];
      for i := 0 to |owned|
        invariant Reached(g, run, now, cutoff, Adopting(owned[i..]))
        invariant before <= run
      {
        run := AdoptOne(g, run, owned[i..], td, cutoff, now);
        assert owned[i..][1..] == owned[i + 1..];
      }
      assert owned[|owned|..] == [];
    }

    // Up to n of the sessions with a usable client, whichever the map yields first.
    method PickVictims(n: nat) returns (ids: seq<SessionId>)
      ensures NoDup(ids) && Elems(ids) <= UsableIn(live) && |ids| == Min(n, |UsableIn(live)|)
    {
      ids := [];
      var rest := UsableIn(live);
      while rest != {} && |ids| < n
        invariant NoDup(ids) && Elems(ids) == UsableIn(live) - rest && rest <= UsableIn(live)
        invariant |ids| + |rest| == |UsableIn(live)| && |ids| <= n
        decreases |rest|
      {
        var s :| s in rest;
        assert Elems(ids + [s]) == Elems(ids) + {s};
        ids := ids + [s];
        rest := rest - {s};
      }
    }

    // Close the client, drop the entry, release the row.
    method ShedOne(ghost g: Fleet, ghost before: seq<Action>, ids: seq<SessionId>, td: Tdlib, cutoff: int, now: int)
      returns (ghost run: seq<Action>)
      requires ids != [] && Reached(g, before, now, cutoff, Shedding(ids))
      modifies this`live, db`rows, disk
      ensures Reached(g, run, now, cutoff, Shedding(ids[1..]))
      ensures before <= run
    {
      run := Close(g, before, ids, td, cutoff, now);
      run := Drop(g, run, ids[0], ids[1..], cutoff, now);
      run := Release(g, run, ids[0], ids[1..], cutoff, now);
    }

    method Close(ghost g: Fleet, ghost before: seq<Action>, ids: seq<SessionId>, td: Tdlib, cutoff: int, now: int)
      returns (ghost run: seq<Action>)
      requires ids != [] && Reached(g, before, now, cutoff, Shedding(ids))
      modifies this`live, disk
      ensures Reached(g, run, now, cutoff, Dropping(ids[0], ids[1..]))
      ensures before <= run
    {
      var s := ids[0];
      var closed := s in td.closes;
      RunAppend(g, before, By(id, CloseNext(closed)));
      run := before + [By(id, CloseNext(closed))];
      if s in live && live[s] != Pending {
        disk.Close(s, id, closed);
        live := live[s := Closed];
      }
    }

    method Drop(ghost g: Fleet, ghost before: seq<Action>, s: SessionId, ghost rest: seq<SessionId>,
                cutoff: int, now: int)
      returns (ghost run: seq<Action>)
      requires Reached(g, before, now, cutoff, Dropping(s, rest))
      modifies this`live
      ensures Reached(g, run, now, cutoff, Releasing(s, rest))
      ensures before <= run
    {
      RunAppend(g, before, By(id, DropNext));
      run := before + [By(id, DropNext)];
      live := live - {s};
    }

    method Release(ghost g: Fleet, ghost before: seq<Action>, s: SessionId, ghost rest: seq<SessionId>,
                   cutoff: int, now: int)
      returns (ghost run: seq<Action>)
      requires Reached(g, before, now, cutoff, Releasing(s, rest))
      modifies db`rows
      ensures Reached(g, run, now, cutoff, Shedding(rest))
      ensures before <= run
    {
      RunAppend(g, before, By(id, ReleaseNext));
      run := before + [By(id, ReleaseNext)];
      db.ReleaseSession(s, now);
    }

    // Gracefully release up to n sessions so lighter peers take them.
    method Shed(ghost g: Fleet, ghost before: seq<Action>, n: nat, td: Tdlib, cutoff: int, now: int,
                ghost load: Todo)
      returns (ghost run: seq<Action>)
      requires load.Loaded? && Reached(g, before, now, cutoff, load)
      requires load.mine > Share(load.total, load.alive)
      requires n == Min(load.mine - Share(load.total, load.alive), SHED_PER_TICK)
      modifies this`live, db`rows, disk
      ensures Reached(g, run, now, cutoff, Shedding([]))
      ensures before <= run
    {
      var ids := PickVictims(n);
      assert UsableIn(live) == UsableSessions(After(g, before).procs[id]);
      RunAppend(g, before, By(id, StartShed(ids)));
      run := before + [By(id, StartShed(ids))];
      for i := 0 to |ids|
        invariant Reached(g, run, now, cutoff, Shedding(ids[i..]))
        invariant before <= run
      {
        run := ShedOne(g, run, ids[i..], td, cutoff, now);
        assert ids[i..][1..] == ids[i + 1..];
      }
      assert ids[|ids|..] == [];
    }

    method HydrateOne(ghost g: Fleet, ghost before: seq<Action>, ids: seq<SessionId>, td: Tdlib, cutoff: int, now: int)
      returns (ghost run: seq<Action>)
      requires ids != [] && Reached(g, before, now, cutoff, Claimed(ids))
      modifies this, db`rows, disk
      ensures Reached(g, run, now, cutoff, Claimed(ids[1..]))
      ensures before <= run
    {
      var s := ids[0];
      var result := Unprepared;
      if s !in retry || now > retry[s] {
        result := RehydrateOne(s, td, now);
      }
      RunAppend(g, before, By(id, HydrateNext(result)));
      run := before + [By(id, HydrateNext(result))];
    }

    // Claim up to limit orphans and hydrate them.
    method ClaimMore(ghost g: Fleet, ghost before: seq<Action>, limit: nat, td: Tdlib, cutoff: int, now: int,
                     ghost load: Todo)
      returns (ghost run: seq<Action>)
      requires load.Loaded? && Reached(g, before, now, cutoff, load)
      requires load.mine < Share(load.total, load.alive) && limit > 0
      requires limit == ClaimLimit(Proc(live, retry, capacity, cutoff, load, {}, Running))
      modifies this, db`rows, disk
      ensures Reached(g, run, now, cutoff, Claimed([]))
      ensures before <= run
    {
      var rows := db.ClaimOrphans(id, cutoff, limit, now);
      RunAppend(g, before, By(id, Claim(rows)));
      run := before + [By(id, Claim(rows))];
      for i := 0 to |rows|
        invariant Reached(g, run, now, cutoff, Claimed(rows[i..]))
        invariant before <= run
      {
        run := HydrateOne(g, run, rows[i..], td, cutoff, now);
        assert rows[i..][1..] == rows[i + 1..];
      }
      assert rows[|rows|..] == [];
    }

    // (0) Write off logins whose worker is gone.
    method Sweep(ghost g: Fleet, now: int) returns (ghost run: seq<Action>)
      requires exists cutoff :: Sees(g, now, cutoff, Idle)
      modifies db`rows
      ensures Reached(g, run, now, now - WORKER_STALE, Swept)
      ensures [By(id, BeginPass)] <= run
    {
      RunAppend(g, [], By(id, BeginPass));
      run := [By(id, BeginPass)];
      assert [] + run == run;
      RunAppend(g, run, By(id, ExpireLogins));
      run := run + [By(id, ExpireLogins)];
      db.ExpireStaleLogins(now - WORKER_STALE, now);
    }

    // (3) Move toward the fair share.
    method Balance(ghost g: Fleet, ghost before: seq<Action>, td: Tdlib, cutoff: int, now: int)
      returns (ghost run: seq<Action>)
      requires Reached(g, before, now, cutoff, Adopting([]))
      modifies this, db`rows, disk
      ensures Reached(g, run, now, cutoff, Idle)
      ensures run != [] && before <= run && run[|run| - 1] == By(id, EndPass)
    {
      var mine, total, alive := db.WorkerLoad(id, cutoff);
      ghost var load := Loaded(mine, total, alive);
      RunAppend(g, before, By(id, ReadLoad));
      run := before + [By(id, ReadLoad)];
      assert Reached(g, run, now, cutoff, load);
      var share := Share(total, alive);
      if mine > share {
        run := Shed(g, run, Min(mine - share, SHED_PER_TICK), td, cutoff, now, load);
      } else if mine < share && |live| < capacity {
        var limit := Min(Min(share - mine, CLAIM_BATCH), capacity - |live|);
        run := ClaimMore(g, run, limit, td, cutoff, now, load);
      }
      run := Finish(g, run, cutoff, now);
    }

    ghost method Finish(g: Fleet, before: seq<Action>, cutoff: int, now: int) returns (run: seq<Action>)
      requires IsRun(g, before) && Enabled(After(g, before), By(id, EndPass))
      requires exists todo :: Reached(g, before, now, cutoff, todo)
      ensures Reached(g, run, now, cutoff, Idle)
      ensures run != [] && before <= run && run[|run| - 1] == By(id, EndPass)
    {
      RunAppend(g, before, By(id, EndPass));
      run := before + [By(id, EndPass)];
    }

    // One whole pass. It is a run of the steps a pass is made of, from the state it
    // began in, so what holds over the runs of passes holds for it.
    method Reconcile(ghost g: Fleet, td: Tdlib, now: int) returns (ghost run: seq<Action>)
      requires exists cutoff :: Sees(g, now, cutoff, Idle)
      modifies this, db`rows, disk
      ensures Reached(g, run, now, now - WORKER_STALE, Idle)
      ensures [By(id, BeginPass)] <= run && run[|run| - 1] == By(id, EndPass)
    {
      var cutoff := now - WORKER_STALE;
      run := Sweep(g, now);
      run := Fence(g, run, cutoff, now);
      run := AdoptOwned(g, run, td, cutoff, now);
      run := Balance(g, run, td, cutoff, now);
    }
  }

  function UsableIn(live: map<SessionId, Entry>): set<SessionId> {
    set s | s in live && live[s] != Pending
  }

  predicate CanOpenIn(locks: map<SessionId, WorkerId>, s: SessionId, result: OpenResult) {
    result == Opened || result == Unauthorized ==> s !in locks
  }
}
