/** The session and worker tables of the Postgres registry, and the statements
    on them that workers use to coordinate (internal/store/store.go). Every
    statement is one atomic step. */
module Registry {
  import opened Common

  type SessionId = string
  type WorkerId = string

  datatype Status = Connecting | AwaitingCode | AwaitingPassword | Authorized | Expired | Error

  // openable: db_dir and db_key_enc are both set.
  datatype Row = Row(status: Status, owner: Option<WorkerId>, updatedAt: int, openable: bool)

  type Rows = map<SessionId, Row>
  type Beats = map<WorkerId, int>  // last_seen_at per registered worker

  const STALE_LOGIN_GRACE := 2 * MINUTE
  const DEAD_WORKER_AGE := HOUR

  predicate Waiting(st: Status) {
    st == Connecting || st == AwaitingCode || st == AwaitingPassword
  }

  predicate Alive(beats: Beats, w: WorkerId, cutoff: int) {
    w in beats && beats[w] > cutoff
  }

  predicate OwnedBy(rows: Rows, s: SessionId, w: WorkerId) {
    s in rows && rows[s].owner == Some(w)
  }

  predicate IsAuthorized(rows: Rows, s: SessionId) {
    s in rows && rows[s].status == Authorized
  }

  // UPDATE session SET status
  function WithStatus(rows: Rows, s: SessionId, st: Status, now: int): Rows {
    if s in rows then rows[s := rows[s].(status := st, updatedAt := now)] else rows
  }

  // UPDATE session SET worker_id
  function WithOwner(rows: Rows, s: SessionId, w: Option<WorkerId>, now: int): Rows {
    if s in rows then rows[s := rows[s].(owner := w, updatedAt := now)] else rows
  }

  // An owner seen exactly at the cutoff still counts here (>=), unlike in the
  // other statements (>).
  predicate Abandoned(rows: Rows, beats: Beats, s: SessionId, cutoff: int, now: int) {
    && s in rows
    && Waiting(rows[s].status)
    && rows[s].updatedAt < now - STALE_LOGIN_GRACE
    && !(rows[s].owner.Some? && rows[s].owner.value in beats && beats[rows[s].owner.value] >= cutoff)
  }

  function ExpireStale(rows: Rows, beats: Beats, cutoff: int, now: int): Rows {
    map s | s in rows ::
      if Abandoned(rows, beats, s, cutoff, now) then rows[s].(status := Expired, updatedAt := now) else rows[s]
  }

  function Foreign(rows: Rows, beats: Beats, w: WorkerId, held: set<SessionId>, cutoff: int): set<SessionId> {
    set s | s in held && s in rows && rows[s].owner.Some? && rows[s].owner.value != w
            && Alive(beats, rows[s].owner.value, cutoff)
  }

  function Owned(rows: Rows, w: WorkerId): set<SessionId> {
    set s | s in rows && rows[s].owner == Some(w) && rows[s].status == Authorized
  }

  function Adoptable(rows: Rows, w: WorkerId): set<SessionId> {
    set s | s in Owned(rows, w) && rows[s].openable
  }

  function AllAuthorized(rows: Rows): set<SessionId> {
    set s | s in rows && rows[s].status == Authorized
  }

  function LiveWorkers(beats: Beats, cutoff: int): set<WorkerId> {
    set w | w in beats && beats[w] > cutoff
  }

  function Orphans(rows: Rows, beats: Beats, cutoff: int): set<SessionId> {
    set s | s in rows && rows[s].status == Authorized && rows[s].openable
            && (rows[s].owner.None? || !Alive(beats, rows[s].owner.value, cutoff))
  }

  // What ClaimOrphans may take: as many orphans as there are, up to limit, the
  // least recently updated first.
  predicate IsClaim(rows: Rows, beats: Beats, cutoff: int, limit: nat, ids: seq<SessionId>) {
    var orphans := Orphans(rows, beats, cutoff);
    && NoDup(ids)
    && Elems(ids) <= orphans
    && |ids| == Min(limit, |orphans|)
    && forall s, o :: s in Elems(ids) && o in orphans - Elems(ids) ==> rows[s].updatedAt <= rows[o].updatedAt
  }

  function Assign(rows: Rows, ids: set<SessionId>, w: WorkerId, now: int): Rows {
    map s | s in rows :: if s in ids then rows[s].(owner := Some(w), updatedAt := now) else rows[s]
  }

  function ReleaseAll(rows: Rows, w: WorkerId, now: int): Rows {
    map s | s in rows ::
      if rows[s].owner == Some(w) && rows[s].status == Authorized
      then rows[s].(owner := None, updatedAt := now) else rows[s]
  }

  function Purge(beats: Beats, before: int): Beats {
    map w | w in beats && beats[w] >= before :: beats[w]
  }
}
