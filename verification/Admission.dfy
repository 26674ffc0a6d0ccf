/** Admitting one call: the account restriction, the operator's quota and the
    write pace, with the quota given back to a call that never goes out
    (internal/session/limits.go, internal/session/guard.go). */
module Admission {
  import opened Common
  import opened Calendar
  import opened Windows
  import opened Quota
  import opened Counters
  import opened CallGuard

  datatype Reason = ByCooldown | ByPace | ByLimit

  datatype Refusal = Refusal(reason: Reason, scope: string, until: int, limit: Option<Limit>)

  // Uncounted: no rule bears on the call, or the store failed.
  datatype QuotaResult = Uncounted | Held(uses: seq<Use>) | OverLimit(refusal: Refusal)

  // Wait: how long the call waits before it goes out.
  datatype Verdict = GoesOut(wait: int) | RefusedCall(refusal: Refusal) | Cancelled

  // The rules a call counts against, with its weight on each.
  predicate Counts(a: Applied, name: string, params: Params) {
    a.replacedBy == "" && Count(a.limit, name, params) > 0
  }

  function UseOf(l: Limit, bucket: string, name: string, params: Params, now: int): Use {
    Use(Key(l.id, bucket, Window(l.per, now).start), Count(l, name, params), l.max)
  }

  function Hits(applied: seq<Applied>, name: string, params: Params): seq<Limit> {
    if applied == [] then []
    else
      var a := applied[|applied| - 1];
      Hits(applied[..|applied| - 1], name, params) + if Counts(a, name, params) then [a.limit] else []
  }

  function Uses(hits: seq<Limit>, bucket: string, name: string, params: Params, now: int): seq<Use> {
    seq(|hits|, i requires 0 <= i < |hits| => UseOf(hits[i], bucket, name, params, now))
  }

  function QuotaSpec(t: Table, hits: seq<Limit>, bucket: string, name: string, params: Params, now: int)
    : (Table, QuotaResult)
  {
    var uses := Uses(hits, bucket, name, params, now);
    if uses == [] then (t, Uncounted)
    else
      var (after, taken) := Take(t, uses);
      match taken
      case Counted => (after, Held(uses))
      case Failed => (after, Uncounted)
      case Refused(i) =>
        (after, if i < |hits|
                then OverLimit(Refusal(ByLimit, "", Window(hits[i].per, now).end, Some(hits[i])))
                else Uncounted)
  }

  predicate PacedGroup(scope: string) {
    scope in ["@send", "@join", "@invite", "@create", "@contacts"]
  }

  // What becomes of a call: stopped by the account's spam limit until a time, or
  // by a full rule, or - if it is a paced write - by the pace; else it goes out.
  function Decision(spamLimited: Option<int>, quota: QuotaResult, paced: bool, scope: string, slot: Slot, now: int,
                    canceled: bool): Verdict
  {
    match spamLimited
    case Some(until) => RefusedCall(Refusal(ByCooldown, SPAM_LIMIT_SCOPE, until, None))
    case None =>
      if quota.OverLimit? then RefusedCall(quota.refusal)
      else if !paced then GoesOut(0)
      else if !slot.ok then RefusedCall(Refusal(ByPace, scope, now + slot.wait - MAX_PACE_WAIT, None))
      else if slot.wait != 0 && canceled then Cancelled
      else GoesOut(slot.wait)
  }

  // What a decided call leaves in the counters: what it took, if it goes out.
  function TableAfter(t: Table, quota: (Table, QuotaResult), spamLimited: Option<int>, verdict: Verdict): Table {
    if spamLimited.Some? then t
    else if !verdict.GoesOut? && quota.1.Held? then GiveBack(quota.0, quota.1.uses)
    else quota.0
  }

  // Until when the account's spam limit stops a call it does not allow.
  function SpamLimit(cool: Cooldowns, isUser: bool, spamBlocked: bool, now: int): Option<int> {
    match Active(cool, SPAM_LIMIT_SCOPE, now)
    case Some(c) => if isUser && spamBlocked then Some(c.until) else None
    case None => None
  }

  // A call and all that decides about it besides the time.
  datatype Situation = Situation(table: Table, cool: Cooldowns, next: int, isUser: bool, bucket: string, hits: seq<Limit>,
                                 name: string, params: Params, spamBlocked: bool, canceled: bool)

  // A cooldown of the call's own scope comes before everything else.
  function Outcome(x: Situation, now: int): Verdict {
    match Active(x.cool, Scope(x.name), now)
    case Some(c) => RefusedCall(Refusal(ByCooldown, Scope(x.name), c.until, None))
    case None =>
      Decision(SpamLimit(x.cool, x.isUser, x.spamBlocked, now),
               QuotaSpec(x.table, x.hits, x.bucket, x.name, x.params, now).1,
               x.isUser && PacedGroup(Scope(x.name)), Scope(x.name), Reserve(x.next, now), now, x.canceled)
  }

  // One session's admission, on the worker that holds it.
  class Session {
    const id: string
    const isUser: bool
    const store: Store
    const guard: Guard

    constructor (id: string, isUser: bool, store: Store, guard: Guard)
      ensures this.id == id && this.isUser == isUser && this.store == store && this.guard == guard
    {
      this.id, this.isUser, this.store, this.guard := id, isUser, store, guard;
    }

    method TakeQuota(rules: seq<Limit>, caller: Caller, name: string, params: Params, now: int)
      returns (result: QuotaResult)
      modifies store
      ensures (store.table, result)
           == QuotaSpec(old(store.table), Hits(AppliedOf(rules, caller, rules), name, params), id, name, params, now)
    {
      var applied := Applicable(rules, caller);
      var uses: seq<Use>, hits: seq<Limit> := [], [];
      for i := 0 to |applied|
        invariant hits == Hits(applied[..i], name, params)
        invariant uses == Uses(hits, id, name, params, now)
      {
        var a := applied[i];
        assert applied[..i + 1][..i] == applied[..i];
        if a.replacedBy == "" {
          var n := Count(a.limit, name, params);
          if n != 0 {
            uses := uses + [Use(Key(a.limit.id, id, Window(a.limit.per, now).start), n, a.limit.max)];
            hits := hits + [a.limit];
          }
        }
      }
      assert applied[..|applied|] == applied;
      if uses == [] {
        return Uncounted;
      }
      var taken := store.TakeCounters(uses);
      match taken {
        case Counted => result := Held(uses);
        case Failed => result := Uncounted;
        case Refused(i) =>
          if i < |hits| {
            result := OverLimit(Refusal(ByLimit, "", Window(hits[i].per, now).end, Some(hits[i])));
          } else {
            result := Uncounted;
          }
      }
    }

    // checkCooldown and admit, in the order of a call.
    method Call(rules: seq<Limit>, caller: Caller, name: string, params: Params, now: int,
                spamBlocked: bool, canceled: bool)
      returns (verdict: Verdict)
      requires Typed(store.table, [])
      requires forall l :: l in rules ==> l.max <= MAX_INT4
      modifies store, guard`next
      ensures verdict == Outcome(
        Situation(old(store.table), guard.cool, old(guard.next), isUser, id,
                  Hits(AppliedOf(rules, caller, rules), name, params), name, params, spamBlocked, canceled), now)
      ensures !verdict.GoesOut? ==> forall k :: Read(store.table, k) == Read(old(store.table), k)
    {
      var c := guard.IsActive(Scope(name), now);
      if c.Some? {
        return RefusedCall(Refusal(ByCooldown, Scope(name), c.value.until, None));
      }
      verdict := Admit(rules, caller, name, params, now, spamBlocked, canceled);
    }

    // spamBlocked: the account is spam-limited and this call is one it may not
    // make. canceled: the caller gives up during the wait.
    method Admit(rules: seq<Limit>, caller: Caller, name: string, params: Params, now: int,
                 spamBlocked: bool, canceled: bool)
      returns (verdict: Verdict)
      requires Typed(store.table, [])
      requires forall l :: l in rules ==> l.max <= MAX_INT4
      modifies store, guard`next
      ensures verdict == Decision(
        SpamLimit(guard.cool, isUser, spamBlocked, now),
        QuotaSpec(old(store.table), Hits(AppliedOf(rules, caller, rules), name, params), id, name, params, now).1,
        isUser && PacedGroup(Scope(name)), Scope(name), Reserve(old(guard.next), now), now, canceled)
      ensures store.table == TableAfter(
        old(store.table),
        QuotaSpec(old(store.table), Hits(AppliedOf(rules, caller, rules), name, params), id, name, params, now),
        SpamLimit(guard.cool, isUser, spamBlocked, now), verdict)
      // A call that does not go out has spent nothing.
      ensures !verdict.GoesOut? ==> forall k :: Read(store.table, k) == Read(old(store.table), k)
      // Only a paced write books a slot, and a refused one does not.
      ensures guard.next == (if verdict.RefusedCall? || !isUser || !PacedGroup(Scope(name)) then old(guard.next)
                             else Reserve(old(guard.next), now).next)
      ensures verdict.GoesOut? ==> 0 <= verdict.wait <= MAX_PACE_WAIT
    {
      hide QuotaSpec, Hits, AppliedOf, GiveBack, Take, Typed;
      if isUser && spamBlocked {
        var c := guard.IsActive(SPAM_LIMIT_SCOPE, now);
        if c.Some? {
          return RefusedCall(Refusal(ByCooldown, SPAM_LIMIT_SCOPE, c.value.until, None));
        }
      }
      ghost var hits := Hits(AppliedOf(rules, caller, rules), name, params);
      ghost var before := store.table;
      var quota := TakeQuota(rules, caller, name, params, now);
      NothingSpent(before, rules, caller, id, name, params, now);
      if quota.OverLimit? {
        return RefusedCall(quota.refusal);
      }
      if !isUser || !PacedGroup(Scope(name)) {
        return GoesOut(0);
      }
      var wait, ok := guard.ReserveSlot(now);
      if !ok {
        if quota.Held? {
          store.GiveBackCounters(quota.uses);
        }
        return RefusedCall(Refusal(ByPace, Scope(name), now + (wait - MAX_PACE_WAIT), None));
      }
      if wait != 0 && canceled {
        if quota.Held? {
          store.GiveBackCounters(quota.uses);
        }
        return Cancelled;
      }
      verdict := GoesOut(wait);
    }
  }

  lemma {:induction false} HitsAreRules(rules: seq<Limit>, c: Caller, applied: seq<Applied>, name: string, params: Params)
    requires forall a :: a in applied ==> a.limit in rules
    ensures forall l :: l in Hits(applied, name, params) ==> l in rules && Count(l, name, params) > 0
  {
    if applied != [] {
      HitsAreRules(rules, c, applied[..|applied| - 1], name, params);
    }
  }

  // Whatever quota a call is refused or given back, every counter reads as before.
  lemma NothingSpent(t: Table, rules: seq<Limit>, c: Caller, bucket: string, name: string, params: Params, now: int)
    requires Typed(t, []) && forall l :: l in rules ==> l.max <= MAX_INT4
    ensures var (after, result) := QuotaSpec(t, Hits(AppliedOf(rules, c, rules), name, params), bucket, name, params, now);
      && (result.OverLimit? ==> after == t)
      && (result.Uncounted? ==> after == t)
      && (result.Held? ==> forall k :: Read(GiveBack(after, result.uses), k) == Read(t, k))
  {
    var hits := Hits(AppliedOf(rules, c, rules), name, params);
    var uses := Uses(hits, bucket, name, params, now);
    forall a | a in AppliedOf(rules, c, rules)
      ensures a.limit in rules
    {
      AppliedAre(rules, c, rules, a);
    }
    HitsAreRules(rules, c, AppliedOf(rules, c, rules), name, params);
    assert Typed(t, uses);
    AllOrNothing(t, uses);
    if Take(t, uses).1 == Counted {
      forall k
        ensures Read(GiveBack(Take(t, uses).0, uses), k) == Read(t, k)
      {
        GiveBackUndoesTake(t, uses, k);
      }
    }
  }

  // A call goes out exactly if the account may make it, every rule it counts
  // against has room for it - or a count overflows its column, which the store
  // reports as a failure - and its turn comes within the bound, unless the caller
  // gives up waiting.
  lemma GoesOutIff(t: Table, hits: seq<Limit>, bucket: string, name: string, params: Params, now: int,
                   spamLimited: Option<int>, paced: bool, slot: Slot, canceled: bool)
    requires Typed(t, Uses(hits, bucket, name, params, now))
    ensures var uses := Uses(hits, bucket, name, params, now);
            var quota := QuotaSpec(t, hits, bucket, name, params, now).1;
            Decision(spamLimited, quota, paced, Scope(name), slot, now, canceled).GoesOut?
            <==> && spamLimited.None?
                 && (AllFit(t, uses, |uses|) || exists i :: 0 <= i < |uses| && MisfitOverflows(t, uses, i))
                 && (paced ==> slot.ok && (slot.wait == 0 || !canceled))
  {
    var uses := Uses(hits, bucket, name, params, now);
    AllOrNothing(t, uses);
  }
}
