/** Quotas over runs: many calls at once, each taking its counts in one
    transaction and perhaps giving them back row by row, while old windows are
    swept (internal/session/limits.go, guard.go, deliver.go). */
module QuotaRuns {
  import opened Common
  import opened Calendar
  import opened Windows
  import opened Counters

  // A rule with a fixed max.
  datatype Rule = Rule(per: Per, max: int)

  type Rules = map<string, Rule>

  // Where a call stands with what it took: waiting for its turn, gone out, giving
  // back one row after the other, or done without having gone out.
  datatype Phase = Holding(uses: seq<Use>) | Out(uses: seq<Use>, left: int) | Returning(rest: seq<Use>) | Ended

  // at: when it was counted. It goes out when its wait is over, at left.
  datatype Call = Call(at: int, phase: Phase)

  // swept: the latest sweep.
  datatype State = State(table: Table, calls: seq<Call>, swept: int)

  datatype Step =
    | Begin(at: int, uses: seq<Use>)
    | Go(c: nat, left: int)
    | Abandon(c: nat)
    | GiveNext(c: nat)
    | Sweep(now: int)

  function Outstanding(p: Phase): seq<Use> {
    match p
    case Holding(uses) => uses
    case Out(uses, _) => uses
    case Returning(rest) => rest
    case Ended => []
  }

  // The uses takeQuota builds for a call at an instant.
  predicate BuiltAt(rules: Rules, at: int, uses: seq<Use>) {
    forall u :: u in uses ==>
      && 1 <= u.n && u.key.limit in rules
      && u.max == rules[u.key.limit].max && u.key.window == Window(rules[u.key.limit].per, at).start
  }

  predicate IsPhase(s: State, c: nat, holding: bool) {
    c < |s.calls| && if holding then s.calls[c].phase.Holding? else s.calls[c].phase.Returning?
  }

  // A call's clock may lag behind the sweep's by up to a day.
  predicate Enabled(rules: Rules, s: State, step: Step) {
    match step
    case Begin(at, uses) => BuiltAt(rules, at, uses) && at >= s.swept - DAY
    case Go(c, left) => IsPhase(s, c, true) && left >= s.calls[c].at
    case Abandon(c) => IsPhase(s, c, true)
    case GiveNext(c) => IsPhase(s, c, false) && s.calls[c].phase.rest != []
    case Sweep(now) => now >= s.swept
  }

  function Apply(rules: Rules, s: State, step: Step): State
    requires Enabled(rules, s, step)
  {
    match step
    case Begin(at, uses) =>
      var (after, taken) := Take(s.table, uses);
      // A refused call is over; one the store failed on goes out uncounted.
      var phase := match taken
                   case Counted => Holding(uses)
                   case Refused(_) => Ended
                   case Failed => Out([], at);
      s.(table := after, calls := s.calls + [Call(at, phase)])
    case Go(c, left) => s.(calls := s.calls[c := s.calls[c].(phase := Out(s.calls[c].phase.uses, left))])
    case Abandon(c) => s.(calls := s.calls[c := s.calls[c].(phase := Returning(s.calls[c].phase.uses))])
    case GiveNext(c) =>
      var rest := s.calls[c].phase.rest;
      s.(table := GiveOne(s.table, rest[0]), calls := s.calls[c := s.calls[c].(phase := Returning(rest[1..]))])
    case Sweep(now) => s.(table := Purge(s.table, now - COUNTER_AGE), swept := now)
  }

  // --- what is taken and not given back ---

  function Total(calls: seq<Call>, k: Key): int {
    if calls == [] then 0
    else Total(calls[..|calls| - 1], k) + Weight(Outstanding(calls[|calls| - 1].phase), k)
  }

  lemma TotalGrows(calls: seq<Call>, c: Call, k: Key)
    ensures Total(calls + [c], k) == Total(calls, k) + Weight(Outstanding(c.phase), k)
  {
    assert (calls + [c])[..|calls|] == calls;
  }

  lemma {:induction false} TotalMoves(calls: seq<Call>, i: nat, c: Call, k: Key)
    requires i < |calls|
    ensures Total(calls[i := c], k) - Weight(Outstanding(c.phase), k)
            == Total(calls, k) - Weight(Outstanding(calls[i].phase), k)
  {
    var init := calls[..|calls| - 1];
    if i == |calls| - 1 {
      assert calls[i := c][..|calls| - 1] == init;
    } else {
      assert calls[i := c][..|calls| - 1] == init[i := c];
      TotalMoves(init, i, c, k);
    }
  }

  predicate Positive(calls: seq<Call>) {
    forall c :: c in calls ==> forall u :: u in Outstanding(c.phase) ==> u.n >= 0
  }

  lemma {:induction false} TotalCovers(calls: seq<Call>, i: nat, k: Key)
    requires Positive(calls)
    ensures Total(calls, k) >= 0
    ensures i < |calls| ==> Weight(Outstanding(calls[i].phase), k) <= Total(calls, k)
  {
    if calls != [] {
      var init, last := calls[..|calls| - 1], calls[|calls| - 1];
      WeightNotNegative(Outstanding(last.phase), k);
      TotalCovers(init, if i < |init| then i else 0, k);
    }
  }

  // --- the invariant ---

  predicate ValidRules(rules: Rules) {
    forall id :: id in rules ==> 0 < rules[id].max <= MAX_INT4
  }

  predicate Kept(s: State, k: Key) {
    k.window >= s.swept - COUNTER_AGE
  }

  // Each counter still kept is exactly what was taken and not given back; and no
  // window, kept or swept, ever held more than its max.
  ghost predicate Inv(rules: Rules, s: State) {
    && ValidRules(rules)
    && (forall c :: c in s.calls ==> BuiltAt(rules, c.at, Outstanding(c.phase)))
    && (forall k :: Kept(s, k) ==> Read(s.table, k) == Total(s.calls, k))
    && (forall k :: k in s.table ==> Kept(s, k) && k.limit in rules)
    && (forall k: Key :: k.limit in rules ==> Total(s.calls, k) <= rules[k.limit].max)
  }

  lemma BuiltIsKept(rules: Rules, at: int, uses: seq<Use>, swept: int, u: Use)
    requires BuiltAt(rules, at, uses) && u in uses && at >= swept - DAY
    ensures u.key.window >= swept - COUNTER_AGE
  {
    hide CivilOf, DayNumber;
    var per := rules[u.key.limit].per;
    WindowIsGrid(per, at);
    GridHolds(per, at);
  }

  lemma {:induction false} WithinMax(t: Table, uses: seq<Use>, k: Key, max: int, i: nat)
    requires i <= |uses| && AllFit(t, uses, i) && Read(t, k) <= max
    requires forall u :: u in uses && u.key == k ==> u.max == max
    ensures Read(t, k) + Weight(uses[..i], k) <= max
  {
    if i > 0 {
      WithinMax(t, uses, k, max, i - 1);
      WeightGrows(uses, i - 1, k);
      assert Fits(t, uses, i - 1) && uses[i - 1] in uses;
    }
  }

  lemma {:induction false} NoUseNoWeight(uses: seq<Use>, k: Key)
    requires forall u :: u in uses ==> u.key != k
    ensures Weight(uses, k) == 0
  {
    if uses != [] {
      NoUseNoWeight(uses[..|uses| - 1], k);
    }
  }

  lemma InvPositive(rules: Rules, s: State)
    requires Inv(rules, s)
    ensures Positive(s.calls)
    ensures forall k :: k in s.table ==> 0 <= s.table[k] <= MAX_INT4
  {
    forall k | k in s.table
      ensures 0 <= s.table[k] <= MAX_INT4
    {
      TotalCovers(s.calls, 0, k);
      assert Kept(s, k) && Read(s.table, k) == s.table[k];
    }
  }

  // The call a Begin step adds.
  function Begun(t: Table, at: int, uses: seq<Use>): Call {
    Call(at, match Take(t, uses).1
             case Counted => Holding(uses)
             case Refused(_) => Ended
             case Failed => Out([], at))
  }

  lemma BeginSums(rules: Rules, s: State, at: int, uses: seq<Use>, k: Key)
    requires Inv(rules, s) && Enabled(rules, s, Begin(at, uses))
    ensures var calls := s.calls + [Begun(s.table, at, uses)];
      && (Kept(s, k) ==> Read(Take(s.table, uses).0, k) == Total(calls, k))
      && (k.limit in rules ==> Total(calls, k) <= rules[k.limit].max)
  {
    InvPositive(rules, s);
    AllOrNothing(s.table, uses);
    TotalGrows(s.calls, Begun(s.table, at, uses), k);
    if Take(s.table, uses).1 == Counted && k.limit in rules {
      BeginTotal(rules, s, at, uses, k);
    }
  }

  lemma BeginInv(rules: Rules, s: State, at: int, uses: seq<Use>)
    requires Inv(rules, s) && Enabled(rules, s, Begin(at, uses))
    ensures Inv(rules, Apply(rules, s, Begin(at, uses)))
  {
    var c := Begun(s.table, at, uses);
    forall k
      ensures Kept(s, k) ==> Read(Take(s.table, uses).0, k) == Total(s.calls + [c], k)
      ensures k.limit in rules ==> Total(s.calls + [c], k) <= rules[k.limit].max
    {
      BeginSums(rules, s, at, uses, k);
    }
    BeginKeys(rules, s, at, uses);
    hide Take, Total, Window, Weight;
    assert BuiltAt(rules, at, Outstanding(c.phase));
    assert Apply(rules, s, Begin(at, uses)).calls == s.calls + [c];
  }

  lemma BeginTotal(rules: Rules, s: State, at: int, uses: seq<Use>, k: Key)
    requires Inv(rules, s) && Enabled(rules, s, Begin(at, uses)) && Take(s.table, uses).1 == Counted
    requires k.limit in rules
    ensures Total(s.calls, k) + Weight(uses, k) <= rules[k.limit].max
  {
    InvPositive(rules, s);
    AllOrNothing(s.table, uses);
    if exists u :: u in uses && u.key == k {
      var u :| u in uses && u.key == k;
      BuiltIsKept(rules, at, uses, s.swept, u);
      assert Read(s.table, k) == Total(s.calls, k);
      WithinMax(s.table, uses, k, rules[k.limit].max, |uses|);
      assert uses[..|uses|] == uses;
    } else {
      NoUseNoWeight(uses, k);
    }
  }

  lemma {:induction false} TakeKeys(t: Table, tx: Table, uses: seq<Use>, i: nat, k: Key)
    requires i <= |uses| && k in TakeFrom(t, tx, uses, i).0
    ensures k in t || k in tx || exists u :: u in uses && u.key == k
    decreases |uses| - i
  {
    if i < |uses| && TakeOne(tx, uses[i]).Written? {
      TakeKeys(t, TakeOne(tx, uses[i]).table, uses, i + 1, k);
      assert uses[i] in uses;
    }
  }

  lemma BeginKeys(rules: Rules, s: State, at: int, uses: seq<Use>)
    requires Inv(rules, s) && Enabled(rules, s, Begin(at, uses))
    ensures forall k :: k in Take(s.table, uses).0 ==> Kept(s, k) && k.limit in rules
  {
    forall k | k in Take(s.table, uses).0
      ensures Kept(s, k) && k.limit in rules
    {
      TakeKeys(s.table, s.table, uses, 0, k);
      if k !in s.table {
        var u :| u in uses && u.key == k;
        BuiltIsKept(rules, at, uses, s.swept, u);
      }
    }
  }

  // The floor at 0 in the give-back is never reached: a row still there holds at
  // least what is being given back.
  lemma GiveBackNeverClamps(rules: Rules, s: State, c: nat)
    requires Inv(rules, s) && Enabled(rules, s, GiveNext(c))
    ensures var u := s.calls[c].phase.rest[0];
      && (u.key in s.table <==> Kept(s, u.key))
      && (u.key in s.table ==> s.table[u.key] >= u.n)
  {
    var rest := s.calls[c].phase.rest;
    var u := rest[0];
    assert s.calls[c] in s.calls && u in rest;
    InvPositive(rules, s);
    TotalCovers(s.calls, c, u.key);
    WeightOfTail(rest, u.key);
    WeightNotNegative(rest[1..], u.key);
  }

  lemma GiveInv(rules: Rules, s: State, c: nat)
    requires Inv(rules, s) && Enabled(rules, s, GiveNext(c))
    ensures Inv(rules, Apply(rules, s, GiveNext(c)))
  {
    var s' := Apply(rules, s, GiveNext(c));
    var rest := s.calls[c].phase.rest;
    assert s.calls[c] in s.calls;
    GiveBackNeverClamps(rules, s, c);
    forall k
      ensures Total(s'.calls, k) == Total(s.calls, k) - (if rest[0].key == k then rest[0].n else 0)
    {
      TotalMoves(s.calls, c, s'.calls[c], k);
      WeightOfTail(rest, k);
    }
    assert rest[0] in rest;
    BuiltStays(rules, s, s', c);
  }

  lemma BuiltStays(rules: Rules, s: State, s': State, c: nat)
    requires forall x :: x in s.calls ==> BuiltAt(rules, x.at, Outstanding(x.phase))
    requires c < |s.calls| && |s'.calls| == |s.calls| && s'.calls == s.calls[c := s'.calls[c]]
    requires s'.calls[c].at == s.calls[c].at
    requires forall u :: u in Outstanding(s'.calls[c].phase) ==> u in Outstanding(s.calls[c].phase)
    ensures forall x :: x in s'.calls ==> BuiltAt(rules, x.at, Outstanding(x.phase))
  {
    forall i | 0 <= i < |s'.calls|
      ensures BuiltAt(rules, s'.calls[i].at, Outstanding(s'.calls[i].phase))
    {
      assert s.calls[i] in s.calls;
    }
  }

  lemma PhaseInv(rules: Rules, s: State, step: Step)
    requires Inv(rules, s) && Enabled(rules, s, step) && (step.Go? || step.Abandon?)
    ensures Inv(rules, Apply(rules, s, step))
  {
    var s' := Apply(rules, s, step);
    forall k
      ensures Total(s'.calls, k) == Total(s.calls, k)
    {
      TotalMoves(s.calls, step.c, s'.calls[step.c], k);
    }
    BuiltStays(rules, s, s', step.c);
  }

  lemma SweepInv(rules: Rules, s: State, now: int)
    requires Inv(rules, s) && now >= s.swept
    ensures Inv(rules, Apply(rules, s, Sweep(now)))
  {
  }

  lemma InvStep(rules: Rules, s: State, step: Step)
    requires Inv(rules, s) && Enabled(rules, s, step)
    ensures Inv(rules, Apply(rules, s, step))
  {
    match step {
      case Begin(at, uses) => BeginInv(rules, s, at, uses);
      case Go(_, _) => PhaseInv(rules, s, step);
      case Abandon(_) => PhaseInv(rules, s, step);
      case GiveNext(c) => GiveInv(rules, s, c);
      case Sweep(now) => SweepInv(rules, s, now);
    }
  }

  // --- runs ---

  predicate IsRun(rules: Rules, s: State, run: seq<Step>)
    decreases |run|
  {
    run == [] || (Enabled(rules, s, run[0]) && IsRun(rules, Apply(rules, s, run[0]), run[1..]))
  }

  function After(rules: Rules, s: State, run: seq<Step>): State
    requires IsRun(rules, s, run)
    decreases |run|
  {
    if run == [] then s else After(rules, Apply(rules, s, run[0]), run[1..])
  }

  lemma {:induction false} InvRun(rules: Rules, s: State, run: seq<Step>)
    requires Inv(rules, s) && IsRun(rules, s, run)
    ensures Inv(rules, After(rules, s, run))
    decreases |run|
  {
    if run != [] {
      InvStep(rules, s, run[0]);
      InvRun(rules, Apply(rules, s, run[0]), run[1..]);
    }
  }

  function Start(swept: int): State {
    State(map[], [], swept)
  }

  // Conservation: after any interleaving of calls, a counter is the summed weight
  // of the calls that took it and have not given it back, and lies in 0..max.
  lemma Conservation(rules: Rules, run: seq<Step>, swept: int, k: Key)
    requires ValidRules(rules) && IsRun(rules, Start(swept), run) && k.limit in rules
    ensures var s := After(rules, Start(swept), run);
      && (Kept(s, k) ==> Read(s.table, k) == Total(s.calls, k))
      && 0 <= Total(s.calls, k) <= rules[k.limit].max
  {
    InvRun(rules, Start(swept), run);
    InvPositive(rules, After(rules, Start(swept), run));
    TotalCovers(After(rules, Start(swept), run).calls, 0, k);
  }

  // With rules up to SAFE_MAX, every call in a run is counted or refused: none goes
  // out uncounted, so the bounds below are bounds on them all.
  lemma NoneGoesUncounted(rules: Rules, run: seq<Step>, swept: int, at: int, uses: seq<Use>)
    requires ValidRules(rules) && IsRun(rules, Start(swept), run)
    requires forall id :: id in rules ==> rules[id].max <= SAFE_MAX
    requires Enabled(rules, After(rules, Start(swept), run), Begin(at, uses))
    requires forall u :: u in uses ==> u.n <= HEAVIEST_CALL
    ensures Take(After(rules, Start(swept), run).table, uses).1 != Failed
  {
    var s := After(rules, Start(swept), run);
    InvRun(rules, Start(swept), run);
    InvPositive(rules, s);
    forall u | u in uses
      ensures Read(s.table, u.key) <= u.max
    {
      TotalCovers(s.calls, 0, u.key);
      if u.key in s.table {
        assert Read(s.table, u.key) == Total(s.calls, u.key) <= rules[u.key.limit].max;
      }
    }
    hide Window, Take;
    NeverFailsWithin(s.table, uses, HEAVIEST_CALL, SAFE_MAX);
  }

  // --- from fixed windows to any interval ---

  // The weight a list of uses puts on one rule and session, in any window.
  function RuleWeight(uses: seq<Use>, limit: string, bucket: string): int {
    if uses == [] then 0
    else
      var u := uses[|uses| - 1];
      RuleWeight(uses[..|uses| - 1], limit, bucket) + if u.key.limit == limit && u.key.bucket == bucket then u.n else 0
  }

  // The weight of the calls that went out, by the instant they were counted at.
  function AdmittedIn(calls: seq<Call>, limit: string, bucket: string, from: int, to: int): int {
    if calls == [] then 0
    else
      var c := calls[|calls| - 1];
      AdmittedIn(calls[..|calls| - 1], limit, bucket, from, to)
      + if c.phase.Out? && from <= c.at < to then RuleWeight(c.phase.uses, limit, bucket) else 0
  }

  function NthKey(limit: string, bucket: string, start: int, len: int, i: nat): Key {
    Key(limit, bucket, start + i * len)
  }

  // What n consecutive windows hold together.
  function HeldBy(uses: seq<Use>, limit: string, bucket: string, start: int, len: int, n: nat): int {
    if n == 0 then 0
    else HeldBy(uses, limit, bucket, start, len, n - 1) + Weight(uses, NthKey(limit, bucket, start, len, n - 1))
  }

  function WindowsTotal(calls: seq<Call>, limit: string, bucket: string, start: int, len: int, n: nat): int {
    if n == 0 then 0
    else WindowsTotal(calls, limit, bucket, start, len, n - 1) + Total(calls, NthKey(limit, bucket, start, len, n - 1))
  }

  lemma {:induction false} OneWindowPerCall(rules: Rules, at: int, uses: seq<Use>, limit: string, bucket: string)
    requires BuiltAt(rules, at, uses) && limit in rules
    ensures RuleWeight(uses, limit, bucket) == Weight(uses, Key(limit, bucket, Window(rules[limit].per, at).start))
  {
    if uses != [] {
      OneWindowPerCall(rules, at, uses[..|uses| - 1], limit, bucket);
    }
  }

  lemma {:induction false} HeldCovers(uses: seq<Use>, limit: string, bucket: string, start: int, len: int, n: nat, i: nat)
    requires forall u :: u in uses ==> u.n >= 0
    ensures HeldBy(uses, limit, bucket, start, len, n) >= 0
    ensures i < n ==> Weight(uses, NthKey(limit, bucket, start, len, i)) <= HeldBy(uses, limit, bucket, start, len, n)
  {
    if n > 0 {
      HeldCovers(uses, limit, bucket, start, len, n - 1, i);
      WeightNotNegative(uses, NthKey(limit, bucket, start, len, n - 1));
    }
  }

  lemma {:induction false} WindowsGrow(calls: seq<Call>, c: Call, limit: string, bucket: string, start: int, len: int, n: nat)
    ensures WindowsTotal(calls + [c], limit, bucket, start, len, n)
         == WindowsTotal(calls, limit, bucket, start, len, n) + HeldBy(Outstanding(c.phase), limit, bucket, start, len, n)
  {
    if n > 0 {
      WindowsGrow(calls, c, limit, bucket, start, len, n - 1);
      TotalGrows(calls, c, NthKey(limit, bucket, start, len, n - 1));
    }
  }

  // Which of the n windows from the one of `from` an instant falls into.
  lemma NthWindow(per: Per, from: int, at: int, n: nat) returns (i: nat)
    requires from <= at < Window(per, from).start + n * Length(per)
    ensures i < n && Window(per, at).start == Window(per, from).start + i * Length(per)
  {
    hide CivilOf, DayNumber;
    WindowIsGrid(per, from);
    WindowIsGrid(per, at);
    i := NthCell(per, from, at, n);
  }

  lemma NthCell(per: Per, from: int, at: int, n: nat) returns (i: nat)
    requires from <= at < Grid(per, from).start + n * Length(per)
    ensures i < n && Grid(per, at).start == Grid(per, from).start + i * Length(per)
  {
    GridHolds(per, from);
    GridHolds(per, at);
    CellSteps(Origin(per), Length(per), Cell(per, from), Cell(per, at), from, at, n);
    i := Cell(per, at) - Cell(per, from);
  }

  lemma CellSteps(origin: int, len: int, p: int, q: int, from: int, at: int, n: nat)
    requires len > 0 && from <= at < origin + p * len + n * len
    requires origin + p * len <= from < origin + p * len + len
    requires origin + q * len <= at < origin + q * len + len
    ensures 0 <= q - p < n && origin + q * len == origin + p * len + (q - p) * len
  {
    var d := q - p;
    assert d * len == q * len - p * len;
    assert (d + 1) * len == d * len + len;
    assert (d - n) * len == d * len - n * len;
    Multiple(d + 1, len);
    Multiple(d - n, len);
  }

  lemma {:induction false} AdmittedIsHeld(rules: Rules, calls: seq<Call>, limit: string, bucket: string, from: int, to: int,
                                          n: nat)
    requires forall c :: c in calls ==> BuiltAt(rules, c.at, Outstanding(c.phase))
    requires limit in rules && to <= Window(rules[limit].per, from).start + n * Length(rules[limit].per)
    ensures AdmittedIn(calls, limit, bucket, from, to)
         <= WindowsTotal(calls, limit, bucket, Window(rules[limit].per, from).start, Length(rules[limit].per), n)
  {
    var per := rules[limit].per;
    var start, len := Window(per, from).start, Length(per);
    if calls == [] {
      NothingTotal(limit, bucket, start, len, n);
    } else {
      var init, c := calls[..|calls| - 1], calls[|calls| - 1];
      assert calls == init + [c] && c in calls;
      AdmittedIsHeld(rules, init, limit, bucket, from, to, n);
      WindowsGrow(init, c, limit, bucket, start, len, n);
      HeldCovers(Outstanding(c.phase), limit, bucket, start, len, n, 0);
      if c.phase.Out? && from <= c.at < to {
        OneCallIsHeld(rules, c, limit, bucket, from, n);
      }
    }
  }

  lemma {:induction false} NothingTotal(limit: string, bucket: string, start: int, len: int, n: nat)
    ensures WindowsTotal([], limit, bucket, start, len, n) == 0
  {
    if n > 0 {
      NothingTotal(limit, bucket, start, len, n - 1);
    }
  }

  lemma OneCallIsHeld(rules: Rules, c: Call, limit: string, bucket: string, from: int, n: nat)
    requires limit in rules && BuiltAt(rules, c.at, Outstanding(c.phase))
    requires from <= c.at < Window(rules[limit].per, from).start + n * Length(rules[limit].per)
    ensures RuleWeight(Outstanding(c.phase), limit, bucket)
         <= HeldBy(Outstanding(c.phase), limit, bucket, Window(rules[limit].per, from).start, Length(rules[limit].per), n)
  {
    hide CivilOf, DayNumber;
    var per := rules[limit].per;
    var i := NthWindow(per, from, c.at, n);
    OneWindowPerCall(rules, c.at, Outstanding(c.phase), limit, bucket);
    HeldCovers(Outstanding(c.phase), limit, bucket, Window(per, from).start, Length(per), n, i);
  }

  lemma {:induction false} TotalsBounded(rules: Rules, s: State, limit: string, bucket: string, start: int, len: int, n: nat)
    requires Inv(rules, s) && limit in rules
    ensures WindowsTotal(s.calls, limit, bucket, start, len, n) <= n * rules[limit].max
  {
    if n > 0 {
      TotalsBounded(rules, s, limit, bucket, start, len, n - 1);
      var k := NthKey(limit, bucket, start, len, n - 1);
      assert Total(s.calls, k) <= rules[k.limit].max;
      assert n * rules[limit].max == (n - 1) * rules[limit].max + rules[limit].max;
    }
  }

  // Over n consecutive windows, the calls one rule admits on one session weigh at
  // most n times its max - sweeps, give-backs and other calls notwithstanding.
  lemma WindowsBound(rules: Rules, run: seq<Step>, swept: int, limit: string, bucket: string, from: int, to: int, n: nat)
    requires ValidRules(rules) && IsRun(rules, Start(swept), run) && limit in rules
    requires to <= Window(rules[limit].per, from).start + n * Length(rules[limit].per)
    ensures AdmittedIn(After(rules, Start(swept), run).calls, limit, bucket, from, to) <= n * rules[limit].max
  {
    hide CivilOf, DayNumber;
    var s := After(rules, Start(swept), run);
    InvRun(rules, Start(swept), run);
    AdmittedIsHeld(rules, s.calls, limit, bucket, from, to, n);
    TotalsBounded(rules, s, limit, bucket, Window(rules[limit].per, from).start, Length(rules[limit].per), n);
  }

  // And in any interval no longer than a window, wherever it lies, at most twice
  // the max: fixed windows give a sliding bound.
  lemma SlidingBound(rules: Rules, run: seq<Step>, swept: int, limit: string, bucket: string, from: int, to: int)
    requires ValidRules(rules) && IsRun(rules, Start(swept), run) && limit in rules
    requires to <= from + Length(rules[limit].per)
    ensures AdmittedIn(After(rules, Start(swept), run).calls, limit, bucket, from, to) <= 2 * rules[limit].max
  {
    hide CivilOf, DayNumber;
    WindowIsGrid(rules[limit].per, from);
    GridHolds(rules[limit].per, from);
    WindowsBound(rules, run, swept, limit, bucket, from, to, 2);
  }

  // --- by the time calls go out ---

  // The weight of the calls that went out in from <= left < to.
  function DepartedIn(calls: seq<Call>, limit: string, bucket: string, from: int, to: int): int {
    if calls == [] then 0
    else
      var c := calls[|calls| - 1];
      DepartedIn(calls[..|calls| - 1], limit, bucket, from, to)
      + if c.phase.Out? && from <= c.phase.left < to then RuleWeight(c.phase.uses, limit, bucket) else 0
  }

  // No call goes out more than lag after it was counted. The pace lets a call wait
  // for ten seconds; what the counting itself takes comes on top.
  predicate Prompt(calls: seq<Call>, lag: nat) {
    forall c :: c in calls && c.phase.Out? ==> c.at <= c.phase.left <= c.at + lag
  }

  lemma {:induction false} RuleWeightNotNegative(uses: seq<Use>, limit: string, bucket: string)
    requires forall u :: u in uses ==> u.n >= 0
    ensures RuleWeight(uses, limit, bucket) >= 0
  {
    if uses != [] {
      RuleWeightNotNegative(uses[..|uses| - 1], limit, bucket);
    }
  }

  // What goes out in an interval was counted in it or at most lag before.
  lemma {:induction false} DepartedWereAdmitted(calls: seq<Call>, limit: string, bucket: string, from: int, to: int, lag: nat)
    requires Prompt(calls, lag) && Positive(calls)
    ensures DepartedIn(calls, limit, bucket, from, to) <= AdmittedIn(calls, limit, bucket, from - lag, to)
  {
    if calls != [] {
      var c := calls[|calls| - 1];
      assert c in calls;
      DepartedWereAdmitted(calls[..|calls| - 1], limit, bucket, from, to, lag);
      RuleWeightNotNegative(Outstanding(c.phase), limit, bucket);
    }
  }

  // In any interval, wherever it lies, the calls that go out under one rule on one
  // session weigh at most n times its max, if it is shorter than n - 1 windows by the
  // longest lag: twice the max in a window less the lag, three times in a window.
  lemma DepartureBound(rules: Rules, run: seq<Step>, swept: int, limit: string, bucket: string, from: int, to: int,
                       lag: nat, n: nat)
    requires ValidRules(rules) && IsRun(rules, Start(swept), run) && limit in rules
    requires Prompt(After(rules, Start(swept), run).calls, lag)
    requires to - from + lag <= (n - 1) * Length(rules[limit].per)
    ensures DepartedIn(After(rules, Start(swept), run).calls, limit, bucket, from, to) <= n * rules[limit].max
  {
    hide CivilOf, DayNumber, Window, Grid, IsRun, Prompt, Positive, DepartedIn, AdmittedIn;
    var s, per := After(rules, Start(swept), run), rules[limit].per;
    InvRun(rules, Start(swept), run);
    hide Inv;
    InvPositive(rules, s);
    DepartedWereAdmitted(s.calls, limit, bucket, from, to, lag);
    WindowReaches(per, from - lag, to, n);
    WindowsBound(rules, run, swept, limit, bucket, from - lag, to, n);
  }

  // n windows, the first of them begun by from, reach n - 1 lengths beyond it.
  lemma WindowReaches(per: Per, from: int, to: int, n: nat)
    requires to - from <= (n - 1) * Length(per)
    ensures to <= Window(per, from).start + n * Length(per)
  {
    hide CivilOf, DayNumber, Window, Cell;
    WindowIsGrid(per, from);
    GridHolds(per, from);
    assert from < Window(per, from).start + Length(per);
    hide Grid;
    OneLengthMore(Window(per, from).start, Length(per), from, to, n);
  }

  lemma OneLengthMore(start: int, len: int, from: int, to: int, n: nat)
    requires from < start + len && to - from <= (n - 1) * len
    ensures to <= start + n * len
  {
    assert n * len == (n - 1) * len + len;
  }
}
