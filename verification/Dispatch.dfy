/** The webhook dispatcher over whole runs: claims, rounds, posts, outcomes, new
    rows and removals in any interleaving. Whatever the receivers answer, a row is
    posted as attempts 1, 2, ... without a gap, at most ten times, never again
    once it was accepted or given up, and never sooner than its backoff. */
module Dispatch {
  import opened Common
  import opened Outbox

  // ---------------------------------------------------------------- backoff

  function Backoff(attempts: nat): int {
    Min(BACKOFF_CAP, BACKOFF_BASE * Pow2(attempts))
  }

  // The waits before a row's next k attempts.
  function TotalBackoff(k: nat): int {
    if k == 0 then 0 else TotalBackoff(k - 1) + Backoff(k - 1)
  }

  lemma {:induction false} BackoffGrows(a: nat, b: nat)
    requires a <= b
    ensures BACKOFF_BASE <= Backoff(a) <= Backoff(b) <= BACKOFF_CAP
    decreases b
  {
    if a < b {
      BackoffGrows(a, b - 1);
    }
  }

  // Between a row's first and tenth attempt it is told to wait 1215 s in all.
  lemma {:induction false} BackoffBudget(k: nat)
    requires k < MAX_ATTEMPTS
    ensures TotalBackoff(k) <= TotalBackoff(MAX_ATTEMPTS - 1) == 1215 * SECOND
    decreases MAX_ATTEMPTS - k
  {
    if k == MAX_ATTEMPTS - 1 {
      assert Backoff(0) == 5 * SECOND && Backoff(1) == 10 * SECOND && Backoff(2) == 20 * SECOND;
      assert Backoff(3) == 40 * SECOND && Backoff(4) == 80 * SECOND && Backoff(5) == 160 * SECOND;
      BackoffGrows(6, 7);
      BackoffGrows(7, 8);
      assert Backoff(6) == Backoff(7) == Backoff(8) == 300 * SECOND;
      assert TotalBackoff(4) == 75 * SECOND && TotalBackoff(8) == TotalBackoff(4) + 840 * SECOND;
    } else {
      BackoffBudget(k + 1);
      BackoffGrows(k, k);
    }
  }

  // ---------------------------------------------------------------- the run

  // A round is one receiver's goroutine: the rows still to post, and whether the
  // first of them has been posted and not answered yet.
  datatype Round = Round(rest: seq<Delivery>, posted: bool)

  // What the outside saw of a row, kept whatever becomes of the row.
  datatype Posting = Posting(number: nat, at: int)
  datatype Answer = Answer(accepted: bool, at: int)
  datatype History = History(sub: SubId, posts: seq<Posting>, answers: seq<Answer>)

  datatype State = State(
    now: int,
    rows: Rows,
    inflight: map<SubId, Round>,
    busy: Option<set<SubId>>,       // the tick's copy of inflight, until it claims
    log: map<RowId, History>)

  datatype Step =
    | Wait(later: int)
    | Enqueue(id: RowId, sub: SubId)
    | Remove(id: RowId)                              // retention or a deleted subscription
    | LookBusy
    | Claim(served: set<SubId>, ids: seq<RowId>)
    | Post(sub: SubId)
    | Record(sub: SubId, accepted: bool)
    | Finish(sub: SubId)

  const INITIAL := State(0, map[], map[], None, map[])

  function Free(busy: set<SubId>): int {
    MAX_INFLIGHT - |busy|
  }

  ghost predicate Enabled(st: State, step: Step) {
    match step
    case Wait(later) => st.now <= later
    case Enqueue(id, sub) => id !in st.log
    case Remove(id) => id in st.rows
    case LookBusy => true
    case Claim(served, ids) =>
      && st.busy.Some? && Free(st.busy.value) > 0
      && var due := Due(st.rows, served, st.busy.value, st.now);
      IsClaim(st.rows, due, PER_SUB_BATCH, Free(st.busy.value) * PER_SUB_BATCH, ids)
    case Post(sub) => sub in st.inflight && st.inflight[sub].rest != [] && !st.inflight[sub].posted
                      && st.inflight[sub].rest[0].id in st.log
    case Record(sub, _) => sub in st.inflight && st.inflight[sub].rest != [] && st.inflight[sub].posted
                           && st.inflight[sub].rest[0].id in st.log
    case Finish(sub) => sub in st.inflight && st.inflight[sub].rest == []
  }

  function Rounds(batch: seq<Delivery>, free: nat): map<SubId, Round> {
    map s | s in Started(batch, free) :: Round(RowsOf(batch, s), false)
  }

  // MarkDelivered and FailDelivery: an update of a row that may be gone.
  function Recorded(rows: Rows, d: Delivery, accepted: bool, now: int): Rows {
    if d.id !in rows then rows
    else
      var row := rows[d.id];
      rows[d.id :=
        if accepted then row.(status := Status.Delivered, attempts := row.attempts + 1)
        else if d.attempts + 1 >= MAX_ATTEMPTS then row.(status := Failed, attempts := row.attempts + 1)
        else row.(attempts := row.attempts + 1, nextTry := now + Backoff(d.attempts))]
  }

  // What a round has left to post: the first failure ends it.
  function Remaining(rest: seq<Delivery>, accepted: bool): seq<Delivery>
    requires rest != []
  {
    if accepted then rest[1..] else []
  }

  ghost function RowsAfter(st: State, step: Step): Rows
    requires Enabled(st, step)
  {
    match step
    case Enqueue(id, sub) => st.rows[id := Row(sub, Pending, 0, st.now, st.now)]
    case Remove(id) => st.rows - {id}
    case Record(sub, accepted) => Recorded(st.rows, st.inflight[sub].rest[0], accepted, st.now)
    case _ => st.rows
  }

  ghost function InflightAfter(st: State, step: Step): map<SubId, Round>
    requires Enabled(st, step)
  {
    match step
    case Claim(served, ids) => st.inflight + Rounds(Scanned(st.rows, ids), Free(st.busy.value))
    case Post(sub) => st.inflight[sub := st.inflight[sub].(posted := true)]
    case Record(sub, accepted) => st.inflight[sub := Round(Remaining(st.inflight[sub].rest, accepted), false)]
    case Finish(sub) => st.inflight - {sub}
    case _ => st.inflight
  }

  ghost function LogAfter(st: State, step: Step): map<RowId, History>
    requires Enabled(st, step)
  {
    match step
    case Enqueue(id, sub) => st.log[id := History(sub, [], [])]
    case Post(sub) =>
      var d := st.inflight[sub].rest[0];
      st.log[d.id := st.log[d.id].(posts := st.log[d.id].posts + [Posting(d.attempts + 1, st.now)])]
    case Record(sub, accepted) =>
      var d := st.inflight[sub].rest[0];
      st.log[d.id := st.log[d.id].(answers := st.log[d.id].answers + [Answer(accepted, st.now)])]
    case _ => st.log
  }

  ghost function After(st: State, step: Step): State
    requires Enabled(st, step)
  {
    State(
      if step.Wait? then step.later else st.now,
      RowsAfter(st, step),
      InflightAfter(st, step),
      if step.LookBusy? then Some(st.inflight.Keys) else if step.Claim? then None else st.busy,
      LogAfter(st, step))
  }

  ghost predicate IsRun(st: State, steps: seq<Step>)
    decreases |steps|
  {
    steps == [] || (Enabled(st, steps[0]) && IsRun(After(st, steps[0]), steps[1..]))
  }

  ghost function Final(st: State, steps: seq<Step>): State
    requires IsRun(st, steps)
    decreases |steps|
  {
    if steps == [] then st else Final(After(st, steps[0]), steps[1..])
  }

  // ---------------------------------------------------------------- invariant

  function StatusOf(answers: seq<Answer>): Status {
    if answers != [] && answers[|answers| - 1].accepted then Status.Delivered
    else if |answers| >= MAX_ATTEMPTS then Failed
    else Pending
  }

  // When the row may be tried again after its last failure.
  function RetryFrom(answers: seq<Answer>): int
    requires answers != []
  {
    answers[|answers| - 1].at + Backoff(|answers| - 1)
  }

  // The promise about one row, in terms of what its receiver saw.
  ghost predicate Honest(h: History) {
    && |h.answers| <= |h.posts| <= |h.answers| + 1
    && |h.posts| <= MAX_ATTEMPTS
    && (forall k :: 0 <= k < |h.posts| ==> h.posts[k].number == k + 1)
    && (forall k :: 0 <= k < |h.answers| && h.answers[k].accepted ==> k == |h.posts| - 1)
    && (forall k :: 0 < k < |h.posts| ==> h.posts[k].at >= h.answers[k - 1].at + Backoff(k - 1))
  }

  ghost predicate RowOk(row: Row, h: History) {
    && row.sub == h.sub
    && row.attempts == |h.answers|
    && row.status == StatusOf(h.answers)
    && (row.status == Pending && h.answers != [] ==> row.nextTry == RetryFrom(h.answers))
  }

  // A claimed copy that is yet to be recorded: its row is pending, its backoff over.
  ghost predicate CopyOk(d: Delivery, s: SubId, log: map<RowId, History>, now: int) {
    && d.sub == s && d.id in log && log[d.id].sub == s
    && d.attempts == |log[d.id].answers| < MAX_ATTEMPTS
    && StatusOf(log[d.id].answers) == Pending
    && (log[d.id].answers != [] ==> RetryFrom(log[d.id].answers) <= now)
  }

  ghost predicate RoundOk(r: Round, s: SubId, log: map<RowId, History>, now: int) {
    && (forall i :: 0 <= i < |r.rest| ==> CopyOk(r.rest[i], s, log, now))
    && DistinctIds(r.rest)
    && (r.posted ==> r.rest != [])
  }

  predicate Awaiting(inflight: map<SubId, Round>, id: RowId, sub: SubId) {
    && sub in inflight && inflight[sub].posted
    && inflight[sub].rest != [] && inflight[sub].rest[0].id == id
  }

  ghost predicate EntryOk(h: History, id: RowId, inflight: map<SubId, Round>) {
    && Honest(h)
    && (|h.posts| > |h.answers| <==> Awaiting(inflight, id, h.sub))
  }

  ghost predicate LogOk(log: map<RowId, History>, inflight: map<SubId, Round>) {
    forall id :: id in log ==> EntryOk(log[id], id, inflight)
  }

  ghost predicate RowsOk(rows: Rows, log: map<RowId, History>) {
    forall id :: id in rows ==> id in log && RowOk(rows[id], log[id])
  }

  ghost predicate RoundsOk(inflight: map<SubId, Round>, log: map<RowId, History>, now: int) {
    forall s :: s in inflight ==> RoundOk(inflight[s], s, log, now)
  }

  ghost predicate RoomOk(inflight: set<SubId>, busy: Option<set<SubId>>) {
    && |inflight| <= MAX_INFLIGHT
    && (busy.Some? ==> inflight <= busy.value && |busy.value| <= MAX_INFLIGHT)
  }

  ghost predicate Inv(st: State) {
    && LogOk(st.log, st.inflight)
    && RowsOk(st.rows, st.log)
    && RoundsOk(st.inflight, st.log, st.now)
    && RoomOk(st.inflight.Keys, st.busy)
  }

  // ---------------------------------------------------------------- one step

  predicate DistinctIds(round: seq<Delivery>) {
    forall i, j :: 0 <= i < j < |round| ==> round[i].id != round[j].id
  }

  lemma {:induction false} RoundIds(batch: seq<Delivery>, s: SubId)
    requires DistinctIds(batch)
    ensures DistinctIds(RowsOf(batch, s))
  {
    if batch != [] {
      var init, last := batch[..|batch| - 1], batch[|batch| - 1];
      RoundIds(init, s);
      forall d | d in RowsOf(init, s)
        ensures d.id != last.id
      {
        assert d in init;
        var k :| 0 <= k < |init| && init[k] == d;
        assert batch[k] == d;
      }
    }
  }

  lemma ClaimedCopies(st: State, served: set<SubId>, ids: seq<RowId>, s: SubId)
    requires RowsOk(st.rows, st.log) && Enabled(st, Claim(served, ids))
    ensures Elems(ids) <= st.rows.Keys
    ensures RoundOk(Round(RowsOf(Scanned(st.rows, ids), s), false), s, st.log, st.now)
  {
    var due := Due(st.rows, served, st.busy.value, st.now);
    var batch := Scanned(st.rows, ids);
    var round := RowsOf(batch, s);
    forall i | 0 <= i < |round|
      ensures CopyOk(round[i], s, st.log, st.now)
    {
      var d := round[i];
      assert d in round && d in batch;
      var k :| 0 <= k < |batch| && batch[k] == d;
      assert ids[k] in Elems(ids) && ids[k] in due;
      assert RowOk(st.rows[d.id], st.log[d.id]);
    }
    RoundIds(batch, s);
  }

  lemma ClaimNamesRows(rows: Rows, due: set<RowId>, perSub: nat, limit: nat, ids: seq<RowId>)
    requires due <= rows.Keys && IsClaim(rows, due, perSub, limit, ids)
    ensures Elems(ids) <= due
  {
  }

  lemma NoneBusy(rows: Rows, served: set<SubId>, busy: set<SubId>, now: int)
    ensures SubsAmong(rows, Due(rows, served, busy, now)) !! busy
  {
  }

  // Started receivers were not busy, and there are no more of them than room.
  lemma RoomForClaim(st: State, served: set<SubId>, ids: seq<RowId>)
    requires RoomOk(st.inflight.Keys, st.busy) && Enabled(st, Claim(served, ids))
    ensures Elems(ids) <= st.rows.Keys
    ensures var started := Rounds(Scanned(st.rows, ids), Free(st.busy.value)).Keys;
            && started !! st.inflight.Keys
            && RoomOk(st.inflight.Keys + started, None)
  {
    hide IsClaim, Scanned, SubsOf, Started, RowsOf;
    var free := Free(st.busy.value);
    var due := Due(st.rows, served, st.busy.value, st.now);
    ClaimNamesRows(st.rows, due, PER_SUB_BATCH, free * PER_SUB_BATCH, ids);
    TickIsFull(st.rows, due, PER_SUB_BATCH, free, ids);
    var subs := Started(Scanned(st.rows, ids), free);
    NoDupSize(subs);
    assert Rounds(Scanned(st.rows, ids), free).Keys == Elems(subs);
    SubsetSize(st.inflight.Keys, st.busy.value);
    NoneBusy(st.rows, served, st.busy.value, st.now);
    hide Due, SubsAmong, NoDup;
    assert |Elems(subs)| <= free;
  }

  lemma MoreRounds(log: map<RowId, History>, inflight: map<SubId, Round>, more: map<SubId, Round>, now: int)
    requires LogOk(log, inflight) && RoundsOk(inflight, log, now)
    requires RoundsOk(more, log, now) && more.Keys !! inflight.Keys
    requires forall s :: s in more ==> !more[s].posted
    ensures LogOk(log, inflight + more) && RoundsOk(inflight + more, log, now)
  {
    hide Honest, RoundOk;
    forall id | id in log
      ensures EntryOk(log[id], id, inflight + more)
    {
      assert EntryOk(log[id], id, inflight);
    }
  }

  lemma InvClaim(st: State, served: set<SubId>, ids: seq<RowId>)
    requires Inv(st) && Enabled(st, Claim(served, ids))
    ensures Inv(After(st, Claim(served, ids)))
  {
    hide IsClaim, Due, Scanned, Started, RowsOf, SubsOf, RoundOk, LogOk, RowsOk;
    RoomForClaim(st, served, ids);
    var batch := Scanned(st.rows, ids);
    var more := Rounds(batch, Free(st.busy.value));
    forall s | s in more
      ensures RoundOk(more[s], s, st.log, st.now)
    {
      ClaimedCopies(st, served, ids, s);
    }
    MoreRounds(st.log, st.inflight, more, st.now);
    assert (st.inflight + more).Keys == st.inflight.Keys + more.Keys;
  }

  // A change of the log that keeps the answers of a round's rows keeps the round.
  lemma RoundFrame(r: Round, s: SubId, log: map<RowId, History>, log': map<RowId, History>, now: int, now': int)
    requires RoundOk(r, s, log, now) && now <= now'
    requires forall i :: 0 <= i < |r.rest| && r.rest[i].id in log ==>
               r.rest[i].id in log' && log'[r.rest[i].id].sub == log[r.rest[i].id].sub
               && log'[r.rest[i].id].answers == log[r.rest[i].id].answers
    ensures RoundOk(r, s, log', now')
  {
    forall i | 0 <= i < |r.rest|
      ensures CopyOk(r.rest[i], s, log', now')
    {
      assert CopyOk(r.rest[i], s, log, now);
    }
  }

  lemma NewEntry(log: map<RowId, History>, inflight: map<SubId, Round>, now: int, id: RowId, sub: SubId)
    requires LogOk(log, inflight) && RoundsOk(inflight, log, now) && id !in log
    ensures LogOk(log[id := History(sub, [], [])], inflight)
  {
    if sub in inflight && inflight[sub].rest != [] {
      assert RoundOk(inflight[sub], sub, log, now);
      assert CopyOk(inflight[sub].rest[0], sub, log, now);
    }
    hide RoundOk, CopyOk;
    forall other | other in log
      ensures EntryOk(log[other], other, inflight)
    {
    }
  }

  lemma InvEnqueue(st: State, id: RowId, sub: SubId)
    requires Inv(st) && Enabled(st, Enqueue(id, sub))
    ensures Inv(After(st, Enqueue(id, sub)))
  {
    hide RoundOk, LogOk;
    var log := st.log[id := History(sub, [], [])];
    NewEntry(st.log, st.inflight, st.now, id, sub);
    forall s | s in st.inflight
      ensures RoundOk(st.inflight[s], s, log, st.now)
    {
      RoundFrame(st.inflight[s], s, st.log, log, st.now, st.now);
    }
  }

  // The row at the head of a round that may be posted or recorded.
  lemma Head(st: State, sub: SubId) returns (d: Delivery)
    requires RoundsOk(st.inflight, st.log, st.now)
    requires sub in st.inflight && st.inflight[sub].rest != []
    ensures d == st.inflight[sub].rest[0] && CopyOk(d, sub, st.log, st.now)
  {
    d := st.inflight[sub].rest[0];
    assert RoundOk(st.inflight[sub], sub, st.log, st.now);
  }

  // A row other than the head awaits an answer after a step of the head's round
  // exactly if it did before.
  lemma OtherEntries(log: map<RowId, History>, inflight: map<SubId, Round>, sub: SubId, r: Round, id: RowId)
    requires LogOk(log, inflight) && id in log && sub in inflight
    requires inflight[sub].rest != [] && inflight[sub].rest[0].id != id
    requires r.posted ==> r.rest == inflight[sub].rest
    ensures EntryOk(log[id], id, inflight[sub := r])
  {
    hide Honest;
    assert EntryOk(log[id], id, inflight);
  }

  lemma PostedEntry(h: History, d: Delivery, sub: SubId, log: map<RowId, History>, now: int, inflight: map<SubId, Round>)
    requires CopyOk(d, sub, log, now) && h == log[d.id] && EntryOk(h, d.id, inflight)
    requires sub in inflight && !inflight[sub].posted && inflight[sub].rest != [] && inflight[sub].rest[0] == d
    ensures EntryOk(h.(posts := h.posts + [Posting(d.attempts + 1, now)]), d.id,
                    inflight[sub := inflight[sub].(posted := true)])
  {
  }

  lemma InvPost(st: State, sub: SubId)
    requires Inv(st) && Enabled(st, Post(sub))
    ensures Inv(After(st, Post(sub)))
  {
    hide Honest, RoundOk, CopyOk, RowOk;
    var st' := After(st, Post(sub));
    var d := Head(st, sub);
    forall id | id in st'.log
      ensures EntryOk(st'.log[id], id, st'.inflight)
    {
      if id == d.id {
        PostedEntry(st.log[id], d, sub, st.log, st.now, st.inflight);
      } else {
        OtherEntries(st.log, st.inflight, sub, st'.inflight[sub], id);
      }
    }
    forall s | s in st'.inflight
      ensures RoundOk(st'.inflight[s], s, st'.log, st'.now)
    {
      RoundFrame(st.inflight[s], s, st.log, st'.log, st.now, st.now);
      MarkPosted(st.inflight[s], s, st'.log, st.now);
    }
    forall id | id in st'.rows
      ensures RowOk(st'.rows[id], st'.log[id])
    {
      RowFrame(st.rows[id], st.log[id], st'.log[id]);
    }
    assert st'.inflight.Keys == st.inflight.Keys;
  }

  lemma MarkPosted(r: Round, s: SubId, log: map<RowId, History>, now: int)
    requires RoundOk(r, s, log, now)
    ensures r.rest != [] ==> RoundOk(r.(posted := true), s, log, now)
  {
    assert r.(posted := true).rest == r.rest;
  }

  lemma RowFrame(row: Row, h: History, h': History)
    requires RowOk(row, h) && h'.sub == h.sub && h'.answers == h.answers
    ensures RowOk(row, h')
  {
  }

  lemma RecordedEntry(h: History, d: Delivery, sub: SubId, log: map<RowId, History>, now: int,
                      inflight: map<SubId, Round>, accepted: bool)
    requires CopyOk(d, sub, log, now) && h == log[d.id] && EntryOk(h, d.id, inflight)
    requires sub in inflight && inflight[sub].posted && inflight[sub].rest != [] && inflight[sub].rest[0] == d
    ensures EntryOk(h.(answers := h.answers + [Answer(accepted, now)]), d.id,
                    inflight[sub := Round(Remaining(inflight[sub].rest, accepted), false)])
  {
  }

  lemma RecordedRow(row: Row, h: History, d: Delivery, sub: SubId, log: map<RowId, History>, now: int, accepted: bool)
    requires CopyOk(d, sub, log, now) && h == log[d.id] && RowOk(row, h)
    ensures RowOk(Recorded(map[d.id := row], d, accepted, now)[d.id],
                  h.(answers := h.answers + [Answer(accepted, now)]))
  {
  }

  lemma RecordedRound(r: Round, s: SubId, log: map<RowId, History>, log': map<RowId, History>, now: int, accepted: bool)
    requires RoundOk(r, s, log, now) && r.rest != [] && r.rest[0].id in log
    requires r.rest[0].id in log' && log' == log[r.rest[0].id := log'[r.rest[0].id]]
    ensures RoundOk(Round(Remaining(r.rest, accepted), false), s, log', now)
  {
    var after := Remaining(r.rest, accepted);
    forall i | 0 <= i < |after|
      ensures CopyOk(after[i], s, log', now)
    {
      assert CopyOk(r.rest[i + 1], s, log, now);
    }
  }

  lemma InvRecord(st: State, sub: SubId, accepted: bool)
    requires Inv(st) && Enabled(st, Record(sub, accepted))
    ensures Inv(After(st, Record(sub, accepted)))
  {
    hide Honest, CopyOk, RowOk, RoundOk;
    var st' := After(st, Record(sub, accepted));
    var d := Head(st, sub);
    forall id | id in st'.log
      ensures EntryOk(st'.log[id], id, st'.inflight)
    {
      if id == d.id {
        RecordedEntry(st.log[id], d, sub, st.log, st.now, st.inflight, accepted);
      } else {
        OtherEntries(st.log, st.inflight, sub, st'.inflight[sub], id);
      }
    }
    forall id | id in st'.rows
      ensures RowOk(st'.rows[id], st'.log[id])
    {
      if id == d.id {
        RecordedRow(st.rows[id], st.log[id], d, sub, st.log, st.now, accepted);
      }
    }
    forall s | s in st'.inflight
      ensures RoundOk(st'.inflight[s], s, st'.log, st'.now)
    {
      if s == sub {
        RecordedRound(st.inflight[s], s, st.log, st'.log, st.now, accepted);
      } else {
        OtherRound(st.inflight[s], s, sub, d, st.log, st.now);
        RoundFrame(st.inflight[s], s, st.log, st'.log, st.now, st.now);
      }
    }
    assert st'.inflight.Keys == st.inflight.Keys;
  }

  // A row is in the rounds of its own subscription only.
  lemma OtherRound(r: Round, s: SubId, sub: SubId, d: Delivery, log: map<RowId, History>, now: int)
    requires RoundOk(r, s, log, now) && CopyOk(d, sub, log, now) && s != sub
    ensures forall i :: 0 <= i < |r.rest| ==> r.rest[i].id != d.id
  {
    forall i | 0 <= i < |r.rest|
      ensures r.rest[i].id != d.id
    {
      assert CopyOk(r.rest[i], s, log, now);
    }
  }

  lemma InvWait(st: State, later: int)
    requires Inv(st) && Enabled(st, Wait(later))
    ensures Inv(After(st, Wait(later)))
  {
    hide RoundOk, LogOk, RowsOk;
    forall s | s in st.inflight
      ensures RoundOk(st.inflight[s], s, st.log, later)
    {
      RoundFrame(st.inflight[s], s, st.log, st.log, st.now, later);
    }
  }

  // A finished round awaits nothing, so nobody's entry misses it.
  lemma LogWithout(log: map<RowId, History>, inflight: map<SubId, Round>, sub: SubId)
    requires LogOk(log, inflight) && sub in inflight && inflight[sub].rest == []
    ensures LogOk(log, inflight - {sub})
  {
    hide Honest;
    forall id | id in log
      ensures EntryOk(log[id], id, inflight - {sub})
    {
      assert EntryOk(log[id], id, inflight);
    }
  }

  lemma InvFinish(st: State, sub: SubId)
    requires Inv(st) && Enabled(st, Finish(sub))
    ensures Inv(After(st, Finish(sub)))
  {
    hide RoundOk, RowsOk, LogOk;
    var inflight := st.inflight - {sub};
    assert inflight.Keys == st.inflight.Keys - {sub};
    SubsetSize(inflight.Keys, st.inflight.Keys);
    LogWithout(st.log, st.inflight, sub);
  }

  lemma InvQuiet(st: State, step: Step)
    requires Inv(st) && Enabled(st, step)
    requires step.Remove? || step.LookBusy?
    ensures Inv(After(st, step))
  {
    hide RoundsOk, LogOk, RowOk, IsClaim;
  }

  lemma InvStep(st: State, step: Step)
    requires Inv(st) && Enabled(st, step)
    ensures Inv(After(st, step))
  {
    hide Inv, After;
    match step
    case Enqueue(id, sub) => InvEnqueue(st, id, sub);
    case Claim(served, ids) => InvClaim(st, served, ids);
    case Post(sub) => InvPost(st, sub);
    case Record(sub, accepted) => InvRecord(st, sub, accepted);
    case Wait(later) => InvWait(st, later);
    case Finish(sub) => InvFinish(st, sub);
    case _ => InvQuiet(st, step);
  }

  lemma {:induction false} InvRun(st: State, steps: seq<Step>)
    requires Inv(st) && IsRun(st, steps)
    ensures Inv(Final(st, steps))
    decreases |steps|
  {
    hide Inv, After, Enabled;
    if steps != [] {
      InvStep(st, steps[0]);
      InvRun(After(st, steps[0]), steps[1..]);
    }
  }

  // ---------------------------------------------------------------- results

  // Whatever happens, every row ever queued has been posted as attempts 1, 2, ...,
  // at most ten times, no sooner than its backoff, and not again once accepted;
  // at most 16 receivers are served at once, and no row is in two rounds.
  lemma Safety(steps: seq<Step>)
    requires IsRun(INITIAL, steps)
    ensures var st := Final(INITIAL, steps);
            && |st.inflight.Keys| <= MAX_INFLIGHT
            && (forall id :: id in st.log ==> Honest(st.log[id]))
            && (forall id :: id in st.rows ==> id in st.log && RowOk(st.rows[id], st.log[id]))
            && (forall s, t, i, j :: (s in st.inflight && t in st.inflight
                  && 0 <= i < |st.inflight[s].rest| && 0 <= j < |st.inflight[t].rest|
                  && st.inflight[s].rest[i].id == st.inflight[t].rest[j].id) ==> s == t && i == j)
  {
    InvRun(INITIAL, steps);
    var st := Final(INITIAL, steps);
    forall s, t, i, j | s in st.inflight && t in st.inflight
        && 0 <= i < |st.inflight[s].rest| && 0 <= j < |st.inflight[t].rest|
        && st.inflight[s].rest[i].id == st.inflight[t].rest[j].id
      ensures s == t && i == j
    {
      assert RoundOk(st.inflight[s], s, st.log, st.now) && RoundOk(st.inflight[t], t, st.log, st.now);
      assert CopyOk(st.inflight[s].rest[i], s, st.log, st.now);
      assert CopyOk(st.inflight[t].rest[j], t, st.log, st.now);
    }
  }

  // A row stops being pending exactly by acceptance, by its tenth failure, or by
  // being removed; a failure before the tenth leaves it pending.
  lemma LeavesPending(st: State, step: Step, id: RowId)
    requires Inv(st) && Enabled(st, step)
    requires id in st.rows && st.rows[id].status == Pending
    ensures var rows := After(st, step).rows;
            var recorded := step.Record? && st.inflight[step.sub].rest[0].id == id;
            && (id !in rows <==> step == Remove(id))
            && (id in rows && rows[id].status == Status.Delivered <==> recorded && step.accepted)
            && (id in rows && rows[id].status == Failed <==>
                  recorded && !step.accepted && st.rows[id].attempts == MAX_ATTEMPTS - 1)
  {
    if step.Record? {
      var d := st.inflight[step.sub].rest[0];
      assert RoundOk(st.inflight[step.sub], step.sub, st.log, st.now);
      assert CopyOk(d, step.sub, st.log, st.now);
    }
    assert RowOk(st.rows[id], st.log[id]);
  }

  // An accepted or abandoned row is never posted again.
  lemma NeverAgain(st: State, step: Step, id: RowId)
    requires Inv(st) && Enabled(st, step)
    requires id in st.log && StatusOf(st.log[id].answers) != Pending
    ensures After(st, step).log[id] == st.log[id]
  {
    if step.Post? || step.Record? {
      var d := st.inflight[step.sub].rest[0];
      assert RoundOk(st.inflight[step.sub], step.sub, st.log, st.now);
      assert CopyOk(d, step.sub, st.log, st.now);
    }
  }
}
