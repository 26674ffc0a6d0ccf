/** One call's admission is a run of the steps that quotas over runs are about, so
    conservation and the bounds hold for the code that admits calls. */
module AdmissionRuns {
  import opened Common
  import opened Windows
  import opened Quota
  import opened Counters
  import opened Admission
  import opened CallGuard
  import opened QuotaRuns

  // The rules of the run are these limits.
  predicate Agree(rules: Rules, hits: seq<Limit>) {
    forall l :: l in hits ==> l.id in rules && rules[l.id] == Rule(l.per, l.max)
  }

  // The uses a call builds are what the run's invariant asks of them.
  lemma UsesAreBuilt(rules: Rules, hits: seq<Limit>, bucket: string, name: string, params: Params, now: int)
    requires Agree(rules, hits) && forall l :: l in hits ==> Count(l, name, params) > 0
    ensures BuiltAt(rules, now, Uses(hits, bucket, name, params, now))
  {
    hide Window;
    var uses := Uses(hits, bucket, name, params, now);
    forall u | u in uses
      ensures 1 <= u.n && u.key.limit in rules && u.max == rules[u.key.limit].max
              && u.key.window == Window(rules[u.key.limit].per, now).start
    {
      var i :| 0 <= i < |uses| && uses[i] == u;
      assert hits[i] in hits;
    }
  }

  // Giving back use by use what call c holds.
  function Gives(c: nat, n: nat): seq<Step> {
    if n == 0 then [] else [GiveNext(c)] + Gives(c, n - 1)
  }

  lemma {:induction false} GivesAll(rules: Rules, s: State, c: nat)
    requires c < |s.calls| && s.calls[c].phase.Returning?
    ensures var steps := Gives(c, |s.calls[c].phase.rest|);
            IsRun(rules, s, steps) && After(rules, s, steps).table == GiveBack(s.table, s.calls[c].phase.rest)
    decreases |s.calls[c].phase.rest|
  {
    var rest := s.calls[c].phase.rest;
    if rest != [] {
      GivesAll(rules, Apply(rules, s, GiveNext(c)), c);
      assert Gives(c, |rest|)[1..] == Gives(c, |rest| - 1);
    }
  }

  // What an admitted, refused or cancelled call does to the counters, as steps.
  function AdmitSteps(c: nat, at: int, uses: seq<Use>, taken: Taken, verdict: Verdict): seq<Step> {
    if taken != Counted then [Begin(at, uses)]
    else if verdict.GoesOut? then [Begin(at, uses), Go(c, at + Max(verdict.wait, 0))]
    else [Begin(at, uses), Abandon(c)] + Gives(c, |uses|)
  }

  // A call that gets past the spam limit begins in the run, and then goes out or
  // gives back; the run's table ends as the code's.
  lemma AdmitIsRun(rules: Rules, s: State, hits: seq<Limit>, bucket: string, name: string, params: Params, now: int,
                   paced: bool, slot: Slot, canceled: bool)
    requires Agree(rules, hits) && forall l :: l in hits ==> Count(l, name, params) > 0
    requires now >= s.swept - DAY
    ensures var uses := Uses(hits, bucket, name, params, now);
            var quota := QuotaSpec(s.table, hits, bucket, name, params, now);
            var verdict := Decision(None, quota.1, paced, Scope(name), slot, now, canceled);
            var steps := AdmitSteps(|s.calls|, now, uses, Take(s.table, uses).1, verdict);
            IsRun(rules, s, steps) && After(rules, s, steps).table == TableAfter(s.table, quota, None, verdict)
  {
    UsesAreBuilt(rules, hits, bucket, name, params, now);
    hide Window, BuiltAt, Count, Scope;
    var uses := Uses(hits, bucket, name, params, now);
    var quota := QuotaSpec(s.table, hits, bucket, name, params, now);
    var verdict := Decision(None, quota.1, paced, Scope(name), slot, now, canceled);
    var c := |s.calls|;
    var steps := AdmitSteps(c, now, uses, Take(s.table, uses).1, verdict);
    var begun := Apply(rules, s, Begin(now, uses));
    assert steps[0] == Begin(now, uses);
    if Take(s.table, uses).1 != Counted {
      assert steps[1..] == [];
    } else if verdict.GoesOut? {
      var go := Go(c, now + Max(verdict.wait, 0));
      assert steps[1..] == [go] && [go][1..] == [];
      assert Enabled(rules, begun, go);
      var gone := Apply(rules, begun, go);
      assert IsRun(rules, gone, []) && IsRun(rules, begun, [go]) && After(rules, begun, [go]) == gone;
    } else {
      assert steps[1..] == [Abandon(c)] + Gives(c, |uses|) && steps[1..][1..] == Gives(c, |uses|);
      GivesAll(rules, Apply(rules, begun, Abandon(c)), c);
    }
  }
}
