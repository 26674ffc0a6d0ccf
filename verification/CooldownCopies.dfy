/** The two copies of a session's cooldowns: the guard's map and the registry's
    table, which is written asynchronously, in any order, and swept of ended rows
    (internal/session/guard.go, internal/store/store.go). */
module CooldownCopies {
  import opened Common
  import opened CallGuard

  // writes: registry writes on their way. swept: the latest time at which ended
  // rows were swept or left out of a load; nothing ended by then matters.
  // imposed: every cooldown ever imposed here, or loaded.
  datatype Copies = Copies(mem: Cooldowns, writes: seq<Cooldown>, reg: Cooldowns, swept: int,
                           imposed: set<Cooldown>)

  datatype Step =
    | Impose(c: Cooldown)
    | Land(i: nat)
    | Sweep(now: int)

  // INSERT ... ON CONFLICT DO UPDATE ... WHERE ends_at < excluded.ends_at: the
  // same rule as the guard's, a longer or equal end stays.
  function Upsert(reg: Cooldowns, c: Cooldown): Cooldowns {
    if c.scope !in reg then reg[c.scope := c]
    else if reg[c.scope].until < c.until then reg[c.scope := c]
    else reg
  }

  // DELETE FROM cooldown WHERE ends_at < before
  function Purge(reg: Cooldowns, before: int): Cooldowns {
    map s | s in reg && reg[s].until >= before :: reg[s]
  }

  // SELECT ... WHERE ends_at > now()
  function LoadAt(reg: Cooldowns, now: int): Cooldowns {
    map s | s in reg && reg[s].until > now :: reg[s]
  }

  predicate Enabled(s: Copies, step: Step) {
    match step
    case Impose(c) => true
    case Land(i) => i < |s.writes|
    case Sweep(now) => now >= s.swept
  }

  // Only a cooldown the guard accepts is sent on to the registry.
  function Apply(s: Copies, step: Step): Copies
    requires Enabled(s, step)
  {
    match step
    case Impose(c) =>
      if Outlasts(s.mem, c) then s.(imposed := s.imposed + {c})
      else s.(mem := WithCooldown(s.mem, c), writes := s.writes + [c], imposed := s.imposed + {c})
    case Land(i) => s.(reg := Upsert(s.reg, s.writes[i]), writes := s.writes[..i] + s.writes[i + 1..])
    case Sweep(now) => s.(reg := Purge(s.reg, now), swept := now)
  }

  // A session comes up here: the guard takes over the running rows.
  predicate Loaded(s: Copies) {
    && (forall x :: x in s.reg ==> s.reg[x].scope == x)
    && s.mem == LoadAt(s.reg, s.swept) && s.writes == [] && s.imposed == s.mem.Values
  }

  // --- the invariant, scope by scope ---

  // The guard's end is the latest of all imposed on the scope.
  predicate Latest(s: Copies, x: string) {
    && (x in s.mem ==> s.mem[x] in s.imposed && s.mem[x].scope == x)
    && (forall c :: c in s.imposed && c.scope == x ==> x in s.mem && c.until <= s.mem[x].until)
  }

  // The registry's row, if it still matters, is no later than the guard's.
  predicate RegBehind(s: Copies, x: string) {
    x in s.reg && s.reg[x].until > s.swept ==>
      x in s.mem && s.reg[x].until <= s.mem[x].until && (s.reg[x].until == s.mem[x].until ==> s.reg[x] == s.mem[x])
  }

  predicate WritesBehind(s: Copies, x: string) {
    forall i :: 0 <= i < |s.writes| && s.writes[i].scope == x ==>
      && x in s.mem && s.writes[i].until <= s.mem[x].until
      && (s.writes[i].until == s.mem[x].until ==> s.writes[i] == s.mem[x])
  }

  // The guard's cooldown is recorded, on its way, or over.
  predicate Accounted(s: Copies, x: string) {
    x in s.mem ==> s.mem[x].until <= s.swept || (x in s.reg && s.reg[x] == s.mem[x]) || s.mem[x] in s.writes
  }

  ghost predicate Inv(s: Copies) {
    forall x :: Latest(s, x) && RegBehind(s, x) && WritesBehind(s, x) && Accounted(s, x)
  }

  lemma LoadedInv(s: Copies)
    requires Loaded(s)
    ensures Inv(s)
  {
  }

  lemma ImposeInv(s: Copies, c: Cooldown)
    requires Inv(s)
    ensures Inv(Apply(s, Impose(c)))
  {
    var s' := Apply(s, Impose(c));
    forall x
      ensures Latest(s', x) && RegBehind(s', x) && WritesBehind(s', x) && Accounted(s', x)
    {
      assert Latest(s, x) && RegBehind(s, x) && WritesBehind(s, x) && Accounted(s, x);
    }
  }

  lemma LandInv(s: Copies, i: nat)
    requires Inv(s) && i < |s.writes|
    ensures Inv(Apply(s, Land(i)))
  {
    var s', w := Apply(s, Land(i)), s.writes[i];
    forall x
      ensures Latest(s', x) && RegBehind(s', x) && WritesBehind(s', x) && Accounted(s', x)
    {
      assert Latest(s, x) && RegBehind(s, x) && WritesBehind(s, x) && Accounted(s, x);
      if x in s.mem && s.mem[x] in s.writes && s.mem[x] != w {
        var j :| 0 <= j < |s.writes| && s.writes[j] == s.mem[x];
        assert s.writes[j] in s'.writes by {
          assert s.writes == s.writes[..i] + [w] + s.writes[i + 1..];
        }
      }
    }
  }

  lemma SweepInv(s: Copies, now: int)
    requires Inv(s) && now >= s.swept
    ensures Inv(Apply(s, Sweep(now)))
  {
    var s' := Apply(s, Sweep(now));
    forall x
      ensures Latest(s', x) && RegBehind(s', x) && WritesBehind(s', x) && Accounted(s', x)
    {
      assert Latest(s, x) && RegBehind(s, x) && WritesBehind(s, x) && Accounted(s, x);
    }
  }

  // --- runs ---

  predicate IsRun(s: Copies, run: seq<Step>)
    decreases |run|
  {
    run == [] || (Enabled(s, run[0]) && IsRun(Apply(s, run[0]), run[1..]))
  }

  function After(s: Copies, run: seq<Step>): Copies
    requires IsRun(s, run)
    decreases |run|
  {
    if run == [] then s else After(Apply(s, run[0]), run[1..])
  }

  lemma {:induction false} InvRun(s: Copies, run: seq<Step>)
    requires Inv(s) && IsRun(s, run)
    ensures Inv(After(s, run))
    decreases |run|
  {
    if run != [] {
      match run[0] {
        case Impose(c) => ImposeInv(s, c);
        case Land(i) => LandInv(s, i);
        case Sweep(now) => SweepInv(s, now);
      }
      InvRun(Apply(s, run[0]), run[1..]);
    }
  }

  // Once every write has landed, in whatever order and with whatever sweeps in
  // between, both copies give the same answer for every scope at every time from
  // the last sweep on; and a running answer is the latest ever imposed.
  lemma CopiesAgree(s: Copies, run: seq<Step>, x: string, t: int)
    requires Loaded(s) && IsRun(s, run) && After(s, run).writes == [] && t >= After(s, run).swept
    ensures var e := After(s, run);
      && Active(e.mem, x, t) == Active(e.reg, x, t)
      && (Active(e.mem, x, t).Some? ==> Active(e.mem, x, t).value in e.imposed)
      && (forall c :: c in e.imposed && c.scope == x && c.until > t ==>
            Active(e.mem, x, t).Some? && c.until <= Active(e.mem, x, t).value.until)
  {
    LoadedInv(s);
    InvRun(s, run);
    var e := After(s, run);
    assert Latest(e, x) && RegBehind(e, x) && Accounted(e, x);
  }

  // Another worker that loads the registry then sees the same scopes cooling down
  // until the same times.
  lemma ReloadAgrees(s: Copies, run: seq<Step>, x: string, loaded: int, t: int)
    requires Loaded(s) && IsRun(s, run) && After(s, run).writes == []
    requires After(s, run).swept <= loaded <= t
    ensures Active(LoadAt(After(s, run).reg, loaded), x, t) == Active(After(s, run).mem, x, t)
  {
    CopiesAgree(s, run, x, t);
  }

  // Sweeping ended rows changes no answer from then on.
  lemma SweepChangesNoAnswer(reg: Cooldowns, now: int, x: string, t: int)
    requires t >= now
    ensures Active(Purge(reg, now), x, t) == Active(reg, x, t)
  {
  }
}
