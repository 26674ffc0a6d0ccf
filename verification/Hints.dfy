/** Honest retry hints: what a refused call may expect at the time its refusal names,
    and before it, if nothing else happens meanwhile. */
module Hints {
  import opened Common
  import opened Calendar
  import opened Windows
  import opened Quota
  import opened Counters
  import opened CallGuard
  import opened Admission

  // Refused for the same reason: the same cooldown scope, the same pace, the same rule.
  predicate SameReason(a: Refusal, b: Refusal) {
    a.reason == b.reason && a.scope == b.scope && a.limit == b.limit
  }

  predicate RefusedAgain(x: Situation, r: Refusal, t: int) {
    Outcome(x, t).RefusedCall? && SameReason(Outcome(x, t).refusal, r)
  }

  function UsesAt(x: Situation, now: int): seq<Use> {
    Uses(x.hits, x.bucket, x.name, x.params, now)
  }

  // The rules are distinct and the columns in range, and nothing was counted in a
  // window that has not begun.
  predicate Sound(x: Situation, now: int) {
    && (forall k :: k in x.table ==> 0 <= x.table[k] <= MAX_INT4 && k.window <= now)
    && (forall l :: l in x.hits ==> l.max <= MAX_INT4)
    && (forall i, j :: 0 <= i < j < |x.hits| ==> x.hits[i].id != x.hits[j].id)
  }

  // A later instant has the same window, or one that has not begun yet.
  lemma LaterWindow(per: Per, now: int, t: int)
    requires now <= t
    ensures Window(per, t).start == Window(per, now).start || Window(per, t).start > now
  {
    hide CivilOf, DayNumber;
    WindowIsGrid(per, now);
    WindowIsGrid(per, t);
    SameWindow(per, now, t);
    GridHolds(per, t);
    GridHolds(per, now);
    SameWindow(per, t, now);
  }

  lemma EndIsFresh(per: Per, now: int)
    ensures Window(per, now).end > now && Window(per, Window(per, now).end).start == Window(per, now).end
  {
    hide CivilOf, DayNumber;
    WindowIsGrid(per, now);
    WindowIsGrid(per, Window(per, now).end);
    WindowsAbut(per, now);
    GridHolds(per, now);
  }

  // Distinct rules count in distinct windows, so each use stands for itself.
  lemma {:induction false} OthersAddNothing(uses: seq<Use>, i: nat, k: Key)
    requires i <= |uses| && forall j :: 0 <= j < i ==> uses[j].key != k
    ensures Weight(uses[..i], k) == 0
  {
    if i > 0 {
      OthersAddNothing(uses, i - 1, k);
      assert uses[..i][..i - 1] == uses[..i - 1];
    }
  }

  lemma FitsAlone(x: Situation, now: int, t: int, i: nat)
    requires Sound(x, now) && i < |x.hits|
    ensures var u := UsesAt(x, t)[i];
            && (Fits(x.table, UsesAt(x, t), i) <==> u.n <= u.max && Read(x.table, u.key) + u.n <= u.max)
            && (Overflows(x.table, UsesAt(x, t), i) <==>
                  u.n > MAX_INT4 || (u.n <= u.max && Read(x.table, u.key) + u.n > MAX_INT4))
  {
    hide Window, Count;
    OthersAddNothing(UsesAt(x, t), i, UsesAt(x, t)[i].key);
  }

  lemma UsesTyped(x: Situation, now: int, t: int)
    requires Sound(x, now)
    ensures Typed(x.table, UsesAt(x, t))
  {
    hide Window, Scope;
    var uses := UsesAt(x, t);
    forall u | u in uses
      ensures u.n >= 0 && u.max <= MAX_INT4
    {
      var i :| 0 <= i < |uses| && uses[i] == u;
      assert x.hits[i] in x.hits;
    }
  }

  // A use that fits now fits at any later time: its window is the same or empty.
  lemma FitsLater(x: Situation, now: int, t: int, i: nat)
    requires Sound(x, now) && now <= t && i < |x.hits| && Fits(x.table, UsesAt(x, now), i)
    ensures Fits(x.table, UsesAt(x, t), i)
  {
    FitsAlone(x, now, now, i);
    FitsAlone(x, now, t, i);
    LaterWindow(x.hits[i].per, now, t);
  }

  // Once past the cooldowns, a call is past them for good.
  lemma StaysPast(x: Situation, now: int, t: int)
    requires now <= t && Active(x.cool, Scope(x.name), now).None?
    requires SpamLimit(x.cool, x.isUser, x.spamBlocked, now).None?
    ensures Active(x.cool, Scope(x.name), t).None? && SpamLimit(x.cool, x.isUser, x.spamBlocked, t).None?
  {
  }

  // A rule refuses exactly when its use is the first that does not fit.
  lemma RefusedByIff(x: Situation, now: int, t: int, i: nat)
    requires Sound(x, now) && i < |x.hits|
    requires Active(x.cool, Scope(x.name), t).None? && SpamLimit(x.cool, x.isUser, x.spamBlocked, t).None?
    ensures Outcome(x, t).RefusedCall? && Outcome(x, t).refusal.limit == Some(x.hits[i])
       <==> Take(x.table, UsesAt(x, t)).1 == Refused(i)
  {
    hide Window, Count, Take, Active, Reserve, SpamLimit;
    var taken := Take(x.table, UsesAt(x, t)).1;
    if taken.Refused? && taken.index < |x.hits| && x.hits[taken.index] == x.hits[i] {
      assert taken.index == i;
    }
  }

  // A full rule told the call to come back at the end of the window. Then the rule
  // refuses it again exactly if the call is heavier than the rule allows at all.
  lemma LimitAgainIff(x: Situation, now: int, i: nat)
    requires Sound(x, now) && i < |x.hits|
    requires Active(x.cool, Scope(x.name), now).None? && SpamLimit(x.cool, x.isUser, x.spamBlocked, now).None?
    requires Take(x.table, UsesAt(x, now)).1 == Refused(i)
    ensures var until := Window(x.hits[i].per, now).end;
            Take(x.table, UsesAt(x, until)).1 == Refused(i) <==> Count(x.hits[i], x.name, x.params) > x.hits[i].max
  {
    var until := Window(x.hits[i].per, now).end;
    var uses, later := UsesAt(x, now), UsesAt(x, until);
    EndIsFresh(x.hits[i].per, now);
    UsesTyped(x, now, now);
    UsesTyped(x, now, until);
    RefusedExactly(x.table, uses, i);
    RefusedExactly(x.table, later, i);
    FitsAlone(x, now, now, i);
    FitsAlone(x, now, until, i);
    hide Window, Count, Take, Fits, Overflows;
    forall j | 0 <= j < i
      ensures Fits(x.table, later, j)
    {
      assert Fits(x.table, uses, j);
      FitsLater(x, now, until, j);
    }
  }

  lemma LimitHint(x: Situation, now: int, i: nat)
    requires Sound(x, now) && i < |x.hits| && Take(x.table, UsesAt(x, now)).1 == Refused(i)
    requires Active(x.cool, Scope(x.name), now).None? && SpamLimit(x.cool, x.isUser, x.spamBlocked, now).None?
    ensures var r := Refusal(ByLimit, "", Window(x.hits[i].per, now).end, Some(x.hits[i]));
            && Outcome(x, now) == RefusedCall(r) && r.until > now
            && (RefusedAgain(x, r, r.until) <==> Count(x.hits[i], x.name, x.params) > x.hits[i].max)
  {
    EndIsFresh(x.hits[i].per, now);
    var until := Window(x.hits[i].per, now).end;
    StaysPast(x, now, until);
    LimitAgainIff(x, now, i);
    hide CivilOf, DayNumber, Window, Count, Scope, Take, Reserve;
    RefusedByIff(x, now, now, i);
    RefusedByIff(x, now, until, i);
  }

  // For every refusal: at the time it names, with nothing else changed, the call is
  // not refused again for the same reason - except by a rule it is too heavy for, and
  // by that one always.
  lemma HintIsHonestIff(x: Situation, now: int)
    requires Sound(x, now) && Outcome(x, now).RefusedCall?
    ensures var r := Outcome(x, now).refusal;
            && r.until > now
            && (RefusedAgain(x, r, r.until)
                <==> r.limit.Some? && Count(r.limit.value, x.name, x.params) > r.limit.value.max)
  {
    hide CivilOf, DayNumber, Window, Count, Scope, Take;
    var r := Outcome(x, now).refusal;
    if r.reason == ByLimit {
      LimitHint(x, now, Take(x.table, UsesAt(x, now)).1.index);
    }
  }

  // And the hint of a cooldown or of the pace is exact: at every instant before it
  // the call is refused for the same reason, with the same hint.
  lemma RefusedUntilThen(x: Situation, now: int, t: int)
    requires Sound(x, now) && Outcome(x, now).RefusedCall?
    requires Outcome(x, now).refusal.limit.None? && now <= t < Outcome(x, now).refusal.until
    requires Take(x.table, UsesAt(x, now)).1 != Failed
    ensures RefusedAgain(x, Outcome(x, now).refusal, t)
    ensures Outcome(x, t).refusal.until == Outcome(x, now).refusal.until
  {
    var r := Outcome(x, now).refusal;
    if r.reason == ByPace {
      StaysPast(x, now, t);
      UsesTyped(x, now, now);
      UsesTyped(x, now, t);
      AllOrNothing(x.table, UsesAt(x, now));
      AllOrNothing(x.table, UsesAt(x, t));
      forall j | 0 <= j < |x.hits|
        ensures Fits(x.table, UsesAt(x, t), j)
      {
        FitsLater(x, now, t, j);
      }
    }
  }
}
