/** The whole fleet as a state machine: N workers, each somewhere inside its
    reconcile pass, over one registry and one set of session directories
    (internal/session/manager.go). Each step is one registry statement, or one
    local action of a worker, so any interleaving of the workers is a run. */
module Fleet {
  import opened Common
  import opened Registry

  const WORKER_STALE := 30 * SECOND
  const OPEN_BACKOFF := 20 * SECOND
  const CLAIM_BATCH: nat := 8
  const SHED_PER_TICK: nat := 2

  // An entry of a worker's live map. Pending: no usable client yet. Ready: an open
  // client. Closed: the client was told to close but is still in the entry, so
  // readyClient() goes on returning it until the entry is dropped.
  datatype Entry = Pending | Ready | Closed

  // Where a worker stands in its pass, with what it has read so far.
  datatype Todo =
    | Idle
    | Started
    | Swept
    | Fencing(foreign: seq<SessionId>)
    | Adopting(owned: seq<SessionId>)
    | Loaded(mine: nat, total: nat, alive: nat)
    | Shedding(victims: seq<SessionId>)
    | Dropping(closing: SessionId, after: seq<SessionId>)
    | Releasing(closed: SessionId, rest: seq<SessionId>)
    | Claimed(claimed: seq<SessionId>)

  // Whether the worker is shutting down: the clients it has still to close, then
  // nothing but its registry rows.
  datatype Exit = Running | Stopping(clients: set<SessionId>) | Leaving

  // deleting: the sessions a delete has begun on here. Their ids are not reused.
  datatype Proc = Proc(live: map<SessionId, Entry>, retry: map<SessionId, int>, capacity: nat,
                       cutoff: int, todo: Todo, deleting: set<SessionId>, exit: Exit)

  // locks: which worker process has a session's directory open.
  datatype Fleet = Fleet(rows: Rows, beats: Beats, procs: map<WorkerId, Proc>,
                         locks: map<SessionId, WorkerId>, now: int)

  // How opening a client on a session's directory can end. Unprepared: it fails
  // before the client exists (app, proxy or key unreadable).
  datatype OpenResult = Opened | Locked | Unauthorized | Unprepared

  datatype Action = Tick(elapsed: nat) | By(w: WorkerId, step: Step)

  datatype Step =
    | Heartbeat
    | PurgeWorkers
    // the reconcile pass
    | BeginPass
    | ExpireLogins
    | QueryForeign(foreign: seq<SessionId>)
    | FenceNext
    | QueryOwned(owned: seq<SessionId>)
    | AdoptNext(result: OpenResult)
    | ReadLoad
    | StartShed(victims: seq<SessionId>)
    | CloseNext(closed: bool)
    | DropNext
    | ReleaseNext
    | Claim(claimed: seq<SessionId>)
    | HydrateNext(result: OpenResult)
    | EndPass
    // everything else
    | Unlock(s: SessionId)
    | CreateLogin(s: SessionId)
    | LoginProgress(s: SessionId, status: Status)
    | LoginReady(s: SessionId)
    | LoginFailed(s: SessionId)
    | DeleteClose(s: SessionId, closed: bool)
    | DeleteDrop(s: SessionId)
    | DeleteRow(s: SessionId)
    | BeginShutdown
    | ShutClose(s: SessionId, closed: bool)
    | ReleaseRows
    | Deregister
    | Crash

  // --- reading a state ---

  predicate IsReady(g: Fleet, w: WorkerId, s: SessionId) {
    w in g.procs && s in g.procs[w].live && g.procs[w].live[s] == Ready
  }

  predicate Fresh(g: Fleet, w: WorkerId) {
    Alive(g.beats, w, g.now - WORKER_STALE)
  }

  predicate IsPending(g: Fleet, w: WorkerId, s: SessionId) {
    w in g.procs && s in g.procs[w].live && g.procs[w].live[s] == Pending
  }

  // readyClient() is not nil: the client is open, or closed and not dropped yet.
  predicate Usable(p: Proc, s: SessionId) {
    s in p.live && p.live[s] != Pending
  }

  function UsableSessions(p: Proc): set<SessionId> {
    set s | s in p.live && p.live[s] != Pending
  }

  predicate RetryReady(p: Proc, s: SessionId, now: int) {
    s !in p.retry || now > p.retry[s]
  }

  function Outstanding(t: Todo): seq<SessionId> {
    match t
    case Fencing(ids) => ids
    case Adopting(ids) => ids
    case Shedding(ids) => ids
    case Dropping(id, rest) => [id] + rest
    case Releasing(id, rest) => [id] + rest
    case Claimed(ids) => ids
    case _ => []
  }

  // share = ceil(total / live workers), at least one worker counted
  function Share(total: nat, alive: nat): nat {
    var n: int := Max(alive, 1);
    (total + n - 1) / n
  }

  predicate Overloaded(p: Proc)
    requires p.todo.Loaded?
  {
    p.todo.mine > Share(p.todo.total, p.todo.alive)
  }

  predicate Underloaded(p: Proc)
    requires p.todo.Loaded?
  {
    p.todo.mine < Share(p.todo.total, p.todo.alive)
  }

  // Up to the share, one batch, and the capacity still free.
  function ClaimLimit(p: Proc): int
    requires p.todo.Loaded?
  {
    Min(Min(Share(p.todo.total, p.todo.alive) - p.todo.mine, CLAIM_BATCH), p.capacity - |p.live|)
  }

  // --- which steps are possible ---

  predicate Enabled(g: Fleet, a: Action) {
    match a
    case Tick(_) => true
    case By(w, step) => w in g.procs && Allowed(g, w, step)
  }

  predicate Allowed(g: Fleet, w: WorkerId, step: Step)
    requires w in g.procs
  {
    var p := g.procs[w];
    match step
    case Heartbeat => true
    case PurgeWorkers => true
    case BeginPass => p.todo.Idle? && p.exit.Running?
    case ExpireLogins => p.todo.Started?
    case QueryForeign(ids) =>
      p.todo.Swept? && Lists(ids, Foreign(g.rows, g.beats, w, p.live.Keys, p.cutoff))
    case FenceNext => p.todo.Fencing? && p.todo.foreign != []
    case QueryOwned(ids) => p.todo == Fencing([]) && Lists(ids, Adoptable(g.rows, w))
    case AdoptNext(result) =>
      p.todo.Adopting? && p.todo.owned != [] && CanOpen(g, p.todo.owned[0], result)
    case ReadLoad => p.todo == Adopting([])
    case StartShed(ids) => MayShed(p, ids)
    case CloseNext(_) => p.todo.Shedding? && p.todo.victims != []
    case DropNext => p.todo.Dropping?
    case ReleaseNext => p.todo.Releasing?
    case Claim(ids) => MayClaim(g, p, ids)
    case HydrateNext(result) =>
      p.todo.Claimed? && p.todo.claimed != [] && CanOpen(g, p.todo.claimed[0], result)
    case EndPass =>
      || p.todo == Shedding([])
      || p.todo == Claimed([])
      || (p.todo.Loaded? && !Overloaded(p) && !(Underloaded(p) && ClaimLimit(p) > 0))
    case Unlock(s) => s in g.locks && g.locks[s] == w && !IsReady(g, w, s)
    case CreateLogin(s) => Unused(g, s)
    case LoginProgress(s, status) =>
      IsPending(g, w, s) && s in g.rows && Waiting(g.rows[s].status) && Waiting(status)
    case LoginReady(s) => IsPending(g, w, s) && s in g.locks && g.locks[s] == w
    case LoginFailed(s) => IsPending(g, w, s)
    // The gateway routes a delete to the owner while one is alive.
    case DeleteClose(s, _) =>
      s in g.rows && (g.rows[s].owner.None? || g.rows[s].owner.value == w || !Fresh(g, g.rows[s].owner.value))
    case DeleteDrop(s) => s in p.deleting
    case DeleteRow(s) => s in p.deleting
    case BeginShutdown => p.exit.Running?
    case ShutClose(s, _) => p.exit.Stopping? && s in p.exit.clients
    case ReleaseRows => p.exit == Stopping({})
    case Deregister => p.exit.Leaving?
    case Crash => true
  }

  predicate Lists(ids: seq<SessionId>, s: set<SessionId>) {
    NoDup(ids) && Elems(ids) == s
  }

  // Only one process can open a directory, and only an opened one can tell
  // that its account is no longer authorized.
  predicate CanOpen(g: Fleet, s: SessionId, result: OpenResult) {
    result == Opened || result == Unauthorized ==> s !in g.locks
  }

  predicate MayShed(p: Proc, ids: seq<SessionId>) {
    && p.todo.Loaded? && Overloaded(p)
    && NoDup(ids) && Elems(ids) <= UsableSessions(p)
    && |ids| == Min(Min(p.todo.mine - Share(p.todo.total, p.todo.alive), SHED_PER_TICK), |UsableSessions(p)|)
  }

  predicate MayClaim(g: Fleet, p: Proc, ids: seq<SessionId>) {
    && p.todo.Loaded? && Underloaded(p) && ClaimLimit(p) > 0
    && IsClaim(g.rows, g.beats, p.cutoff, ClaimLimit(p), ids)
  }

  // A new session id is a fresh uuid: nothing refers to it yet.
  predicate Unused(g: Fleet, s: SessionId) {
    && s !in g.rows && s !in g.locks
    && forall w :: w in g.procs ==> s !in g.procs[w].live && s !in Outstanding(g.procs[w].todo)
  }

  // --- what a step does, component by component ---

  function Apply(g: Fleet, a: Action): Fleet
    requires Enabled(g, a)
  {
    match a
    case Tick(elapsed) => g.(now := g.now + elapsed)
    case By(w, step) => Perform(g, w, step)
  }

  function Perform(g: Fleet, w: WorkerId, step: Step): Fleet
    requires w in g.procs && Allowed(g, w, step)
  {
    var p := g.procs[w];
    Fleet(RowsAfter(g, w, step),
          BeatsAfter(g, w, step),
          g.procs[w := Proc(LiveAfter(g, p, step), RetryAfter(g, p, step), p.capacity,
                            if step.BeginPass? then g.now - WORKER_STALE else p.cutoff,
                            TodoAfter(g, w, step), DeletingAfter(p, step), ExitAfter(g, p, step))],
          LocksAfter(g, w, step),
          g.now)
  }

  // The session a step opens, and with what result. Adopting skips a session
  // already in live; hydrating a claimed one does not.
  function Opening(p: Proc, step: Step, now: int): Option<(SessionId, OpenResult)> {
    match step
    case AdoptNext(result) =>
      if p.todo.Adopting? && p.todo.owned != [] && p.todo.owned[0] !in p.live && RetryReady(p, p.todo.owned[0], now)
      then Some((p.todo.owned[0], result)) else None
    case HydrateNext(result) =>
      if p.todo.Claimed? && p.todo.claimed != [] && RetryReady(p, p.todo.claimed[0], now)
      then Some((p.todo.claimed[0], result)) else None
    case _ => None
  }

  function RowsAfter(g: Fleet, w: WorkerId, step: Step): Rows
    requires w in g.procs && Allowed(g, w, step)
  {
    var p := g.procs[w];
    match step
    case ExpireLogins => ExpireStale(g.rows, g.beats, p.cutoff, g.now)
    case FenceNext =>
      if Usable(p, p.todo.foreign[0]) then WithOwner(g.rows, p.todo.foreign[0], Some(w), g.now) else g.rows
    case AdoptNext(_) => OpenedRows(g.rows, Opening(p, step, g.now), g.now)
    case HydrateNext(_) => OpenedRows(g.rows, Opening(p, step, g.now), g.now)
    case ReleaseNext => WithOwner(g.rows, p.todo.closed, None, g.now)
    case Claim(ids) => Assign(g.rows, Elems(ids), w, g.now)
    case CreateLogin(s) => g.rows[s := Row(Connecting, Some(w), g.now, true)]
    case LoginProgress(s, status) => WithStatus(g.rows, s, status, g.now)
    case LoginReady(s) => WithStatus(g.rows, s, Authorized, g.now)
    case LoginFailed(s) => WithStatus(g.rows, s, Error, g.now)
    case DeleteRow(s) => g.rows - {s}
    case ReleaseRows => ReleaseAll(g.rows, w, g.now)
    case _ => g.rows
  }

  function OpenedRows(rows: Rows, opening: Option<(SessionId, OpenResult)>, now: int): Rows {
    match opening
    case Some((s, Opened)) => WithStatus(rows, s, Authorized, now)
    case Some((s, Unauthorized)) => WithStatus(rows, s, Expired, now)
    case _ => rows
  }

  function BeatsAfter(g: Fleet, w: WorkerId, step: Step): Beats {
    match step
    case Heartbeat => g.beats[w := g.now]
    case PurgeWorkers => Purge(g.beats, g.now - DEAD_WORKER_AGE)
    case Deregister => g.beats - {w}
    case _ => g.beats
  }

  // Fencing drops a session without a ready client; a failed open drops the
  // entry it had just put.
  function LiveAfter(g: Fleet, p: Proc, step: Step): map<SessionId, Entry> {
    match step
    case FenceNext =>
      if p.todo.Fencing? && p.todo.foreign != [] && !Usable(p, p.todo.foreign[0])
      then p.live - {p.todo.foreign[0]} else p.live
    case AdoptNext(_) => OpenedLive(p.live, Opening(p, step, g.now))
    case HydrateNext(_) => OpenedLive(p.live, Opening(p, step, g.now))
    case CloseNext(_) =>
      if p.todo.Shedding? && p.todo.victims != [] then ClosedLive(p.live, p.todo.victims[0]) else p.live
    case DropNext => if p.todo.Dropping? then p.live - {p.todo.closing} else p.live
    case CreateLogin(s) => p.live[s := Pending]
    case LoginReady(s) => p.live[s := Ready]
    case DeleteClose(s, _) => ClosedLive(p.live, s)
    case DeleteDrop(s) => p.live - {s}
    case ShutClose(s, _) => ClosedLive(p.live, s)
    case Crash => map[]
    case _ => p.live
  }

  function ClosedLive(live: map<SessionId, Entry>, s: SessionId): map<SessionId, Entry> {
    if s in live && live[s] == Ready then live[s := Closed] else live
  }

  function DeletingAfter(p: Proc, step: Step): set<SessionId> {
    match step
    case DeleteClose(s, _) => p.deleting + {s}
    case Crash => {}
    case _ => p.deleting
  }

  // Shutdown closes the clients it found when it began; one that is dropped or
  // closed by someone else in the meantime is no longer among them.
  function ExitAfter(g: Fleet, p: Proc, step: Step): Exit {
    match step
    case BeginShutdown => Stopping(set s | s in p.live && p.live[s] == Ready)
    case ReleaseRows => Leaving
    case Crash => Running
    case _ =>
      if p.exit.Stopping? then
        var live := LiveAfter(g, p, step);
        Stopping(set s | s in p.exit.clients && s in live && live[s] == Ready)
      else p.exit
  }

  function OpenedLive(live: map<SessionId, Entry>, opening: Option<(SessionId, OpenResult)>): map<SessionId, Entry> {
    match opening
    case Some((s, Opened)) => live[s := Ready]
    case Some((s, Locked)) => live - {s}
    case Some((s, Unauthorized)) => live - {s}
    case _ => live
  }

  function RetryAfter(g: Fleet, p: Proc, step: Step): map<SessionId, int> {
    match step
    case DeleteRow(s) => p.retry - {s}
    case Crash => map[]
    case _ =>
      match Opening(p, step, g.now)
      case Some((s, Locked)) => p.retry[s := g.now + OPEN_BACKOFF]
      case Some((s, Opened)) => p.retry - {s}
      case Some((s, Unauthorized)) => p.retry - {s}
      case _ => p.retry
  }

  // A close may not be over when closeClient gives up on it; the directory is then
  // freed later, by Unlock.
  function LocksAfter(g: Fleet, w: WorkerId, step: Step): map<SessionId, WorkerId>
    requires w in g.procs && Allowed(g, w, step)
  {
    var p := g.procs[w];
    match step
    case AdoptNext(_) => OpenedLocks(g.locks, w, Opening(p, step, g.now))
    case HydrateNext(_) => OpenedLocks(g.locks, w, Opening(p, step, g.now))
    case CloseNext(closed) =>
      if closed && Usable(p, p.todo.victims[0]) then Unlocked(g.locks, w, p.todo.victims[0]) else g.locks
    case Unlock(s) => g.locks - {s}
    case CreateLogin(s) => g.locks[s := w]
    case LoginFailed(s) => Unlocked(g.locks, w, s)
    case DeleteClose(s, closed) => if closed && s in p.live then Unlocked(g.locks, w, s) else g.locks
    case ShutClose(s, closed) => if closed then Unlocked(g.locks, w, s) else g.locks
    case Crash => UnlockAll(g.locks, w)
    case _ => g.locks
  }

  function OpenedLocks(locks: map<SessionId, WorkerId>, w: WorkerId, opening: Option<(SessionId, OpenResult)>)
    : map<SessionId, WorkerId>
  {
    match opening
    case Some((s, Opened)) => locks[s := w]
    case _ => locks
  }

  function Unlocked(locks: map<SessionId, WorkerId>, w: WorkerId, s: SessionId): map<SessionId, WorkerId> {
    if s in locks && locks[s] == w then locks - {s} else locks
  }

  function UnlockAll(locks: map<SessionId, WorkerId>, w: WorkerId): map<SessionId, WorkerId> {
    map s | s in locks && locks[s] != w :: locks[s]
  }

  function TodoAfter(g: Fleet, w: WorkerId, step: Step): Todo
    requires w in g.procs && Allowed(g, w, step)
  {
    var p := g.procs[w];
    match step
    case BeginPass => Started
    case ExpireLogins => Swept
    case QueryForeign(ids) => Fencing(ids)
    case FenceNext => Fencing(p.todo.foreign[1..])
    case QueryOwned(ids) => Adopting(ids)
    case AdoptNext(_) => Adopting(p.todo.owned[1..])
    case ReadLoad => Loaded(|Owned(g.rows, w)|, |AllAuthorized(g.rows)|, |LiveWorkers(g.beats, p.cutoff)|)
    case StartShed(ids) => Shedding(ids)
    case CloseNext(_) => Dropping(p.todo.victims[0], p.todo.victims[1..])
    case DropNext => Releasing(p.todo.closing, p.todo.after)
    case ReleaseNext => Shedding(p.todo.rest)
    case Claim(ids) => Claimed(ids)
    case HydrateNext(_) => Claimed(p.todo.claimed[1..])
    case EndPass => Idle
    case Crash => Idle
    case _ => p.todo
  }

  // --- runs ---

  predicate IsRun(g: Fleet, run: seq<Action>)
    decreases |run|
  {
    run == [] || (Enabled(g, run[0]) && IsRun(Apply(g, run[0]), run[1..]))
  }

  function After(g: Fleet, run: seq<Action>): Fleet
    requires IsRun(g, run)
    decreases |run|
  {
    if run == [] then g else After(Apply(g, run[0]), run[1..])
  }

  lemma {:induction false} RunAppend(g: Fleet, run: seq<Action>, a: Action)
    requires IsRun(g, run) && Enabled(After(g, run), a)
    ensures IsRun(g, run + [a]) && After(g, run + [a]) == Apply(After(g, run), a)
    decreases |run|
  {
    if run == [] {
      assert run + [a] == [a];
      assert IsRun(Apply(g, a), []);
    } else {
      RunAppend(Apply(g, run[0]), run[1..], a);
      assert (run + [a])[1..] == run[1..] + [a];
    }
  }
}
