/** The call guard of one session (internal/session/guard.go): the pace of writes
    and the cooldowns Telegram imposed, with what its error texts say
    (internal/tdjson/raw.go). */
module CallGuard {
  import opened Common
  import opened Text

  const PACE_INTERVAL := SECOND
  const MAX_PACE_WAIT := 10 * SECOND
  const SPAM_LIMIT_COOLDOWN := 24 * HOUR
  const SPAM_LIMIT_SCOPE := "spam_limit"

  datatype Cooldown = Cooldown(scope: string, until: int, reason: string)

  type Cooldowns = map<string, Cooldown>

  // --- specification functions ---

  datatype Slot = Slot(next: int, wait: int, ok: bool)

  // Books the slot at next, or at once; refuses one more than ten seconds away.
  function Reserve(next: int, now: int): Slot {
    var at := Max(next, now);
    if at - now > MAX_PACE_WAIT then Slot(at, at - now, false) else Slot(at + PACE_INTERVAL, at - now, true)
  }

  function Active(cool: Cooldowns, scope: string, now: int): Option<Cooldown> {
    if scope in cool && cool[scope].until > now then Some(cool[scope]) else None
  }

  // A longer or equal one already there stays.
  predicate Outlasts(cool: Cooldowns, c: Cooldown) {
    c.scope in cool && cool[c.scope].until >= c.until
  }

  function WithCooldown(cool: Cooldowns, c: Cooldown): Cooldowns {
    if Outlasts(cool, c) then cool else cool[c.scope := c]
  }

  class Guard {
    var cool: Cooldowns
    var next: int

    constructor (next: int)
      ensures cool == map[] && this.next == next
    {
      cool := map[];
      this.next := next;
    }

    // The guard starts anew from registry rows, of which each scope has one.
    method Load(rows: seq<Cooldown>)
      requires forall i, j :: 0 <= i < j < |rows| ==> rows[i].scope != rows[j].scope
      modifies this`cool
      ensures cool.Keys == set c | c in rows :: c.scope
      ensures forall c :: c in rows ==> cool[c.scope] == c
    {
      cool := map[];
      for i := 0 to |rows|
        invariant cool.Keys == set c | c in rows[..i] :: c.scope
        invariant forall c :: c in rows[..i] ==> cool[c.scope] == c
      {
        assert rows[..i + 1] == rows[..i] + [rows[i]];
        cool := cool[rows[i].scope := rows[i]];
      }
      assert rows[..|rows|] == rows;
    }

    method IsActive(scope: string, now: int) returns (c: Option<Cooldown>)
      ensures c == Active(cool, scope, now)
    {
      if scope !in cool || !(cool[scope].until > now) {
        return None;
      }
      c := Some(cool[scope]);
    }

    method Set(c: Cooldown) returns (recorded: bool)
      modifies this`cool
      ensures cool == WithCooldown(old(cool), c) && recorded == !Outlasts(old(cool), c)
    {
      if c.scope in cool && !(cool[c.scope].until < c.until) {
        return false;
      }
      cool := cool[c.scope := c];
      recorded := true;
    }

    method Clear(scope: string)
      modifies this`cool
      ensures cool == old(cool) - {scope}
    {
      cool := cool - {scope};
    }

    method ReserveSlot(now: int) returns (wait: int, ok: bool)
      modifies this`next
      ensures Slot(next, wait, ok) == Reserve(old(next), now)
    {
      if next < now {
        next := now;
      }
      wait := next - now;
      if wait > MAX_PACE_WAIT {
        return wait, false;
      }
      next := next + PACE_INTERVAL;
      ok := true;
    }
  }

  // --- pace ---

  // The start times granted to calls that arrive at these times, clocks that run
  // backwards included.
  function Grants(next: int, nows: seq<int>): seq<int>
    decreases nows
  {
    if nows == [] then []
    else
      var slot := Reserve(next, nows[0]);
      (if slot.ok then [nows[0] + slot.wait] else []) + Grants(slot.next, nows[1..])
  }

  predicate Spaced(starts: seq<int>) {
    forall i, j :: 0 <= i < j < |starts| ==> starts[j] >= starts[i] + PACE_INTERVAL
  }

  // Any two granted starts are at least an interval apart, the later granted the
  // later, and none comes before the slot that was next.
  lemma {:induction false} GrantsAreSpaced(next: int, nows: seq<int>)
    ensures Spaced(Grants(next, nows))
    ensures forall i :: 0 <= i < |Grants(next, nows)| ==> Grants(next, nows)[i] >= next
    decreases nows
  {
    if nows != [] {
      var slot := Reserve(next, nows[0]);
      GrantsAreSpaced(slot.next, nows[1..]);
      var first := if slot.ok then [nows[0] + slot.wait] else [];
      assert Grants(next, nows) == first + Grants(slot.next, nows[1..]);
    }
  }

  // The calls that were granted a slot.
  function Granted(next: int, nows: seq<int>): seq<int>
    decreases nows
  {
    if nows == [] then []
    else
      var slot := Reserve(next, nows[0]);
      (if slot.ok then [nows[0]] else []) + Granted(slot.next, nows[1..])
  }

  // Refused calls leave no trace: without them every grant is the same.
  lemma {:induction false} RefusalsLeaveNoTrace(next: int, nows: seq<int>)
    ensures Grants(next, Granted(next, nows)) == Grants(next, nows)
    decreases nows
  {
    if nows != [] {
      var slot := Reserve(next, nows[0]);
      RefusalsLeaveNoTrace(slot.next, nows[1..]);
      if slot.ok {
        assert Granted(next, nows)[1..] == Granted(slot.next, nows[1..]);
      } else {
        assert Granted(next, nows) == Granted(slot.next, nows[1..]);
      }
    }
  }

  function CountIn(starts: seq<int>, from: int, to: int): nat {
    if starts == [] then 0
    else
      var s := starts[|starts| - 1];
      CountIn(starts[..|starts| - 1], from, to) + if from <= s <= to then 1 else 0
  }

  lemma {:induction false} NoneAfter(starts: seq<int>, from: int, to: int, last: int)
    requires forall i :: 0 <= i < |starts| ==> starts[i] <= last
    requires last <= to
    ensures CountIn(starts, from, to) == CountIn(starts, from, last)
  {
    if starts != [] {
      NoneAfter(starts[..|starts| - 1], from, to, last);
    }
  }

  // A span of length L holds at most floor(L / interval) + 1 starts.
  lemma {:induction false} SpanBound(starts: seq<int>, from: int, to: int)
    requires Spaced(starts)
    ensures CountIn(starts, from, to) <= if from <= to then (to - from) / PACE_INTERVAL + 1 else 0
  {
    if starts != [] {
      var init, s := starts[..|starts| - 1], starts[|starts| - 1];
      if from <= s <= to {
        NoneAfter(init, from, to, s - PACE_INTERVAL);
        SpanBound(init, from, s - PACE_INTERVAL);
      } else {
        SpanBound(init, from, to);
      }
    }
  }

  // --- the retry time of a refusal ---

  // A call refused by the pace may try again when the wait has shrunk to the
  // bound; until then it is refused.
  lemma PaceHintIsHonest(next: int, now: int, t: int)
    requires !Reserve(next, now).ok
    ensures var until := now + Reserve(next, now).wait - MAX_PACE_WAIT;
      && until > now
      && (Reserve(next, t).ok <==> t >= until)
  {
  }

  // --- what Telegram's errors say ---

  datatype TdError = TdError(code: int, message: string)

  const MARKER := "retry after "

  function RetryAfter(e: TdError): Option<nat> {
    if e.code != 429 && e.code != 420 then None
    else
      var i := LastIndex(e.message, MARKER);
      if i < 0 then None
      else
        LastIndexBounds(e.message, MARKER, |e.message| - |MARKER|);
        match Atoi(TrimSpace(e.message[i + |MARKER|..]))
        case Some(n) => if n < 0 then None else Some(n)
        case None => None
  }

  lemma {:induction false} LastIndexBounds(s: string, sub: string, i: int)
    requires i <= |s| - |sub|
    ensures -1 <= LastIndexFrom(s, sub, i) <= |s| - |sub| || LastIndexFrom(s, sub, i) == -1
    ensures LastIndexFrom(s, sub, i) >= 0 ==> OccursAt(s, sub, LastIndexFrom(s, sub, i))
    decreases i + 1
  {
    if i >= 0 && !OccursAt(s, sub, i) {
      LastIndexBounds(s, sub, i - 1);
    }
  }

  // Go's 64-bit arithmetic wraps around.
  function Wrap64(x: int): int {
    (x + 0x8000_0000_0000_0000) % 0x1_0000_0000_0000_0000 - 0x8000_0000_0000_0000
  }

  // time.Duration(secs) * time.Second
  function WaitOf(secs: nat): int {
    Wrap64(secs * SECOND)
  }

  // The cooldowns an error answer imposes on calls in a scope.
  function Signals(scope: string, e: TdError, now: int): seq<Cooldown> {
    (match RetryAfter(e)
     case Some(secs) => [Cooldown(scope, now + WaitOf(secs), e.message)]
     case None => [])
    + if LastIndex(e.message, "PEER_FLOOD") >= 0
      then [Cooldown(SPAM_LIMIT_SCOPE, now + SPAM_LIMIT_COOLDOWN, e.message)] else []
  }

  // The longest wait whose nanoseconds fit in 64 bits: about 292 years.
  const LONGEST_WAIT: nat := 9_223_372_036

  function FloodMessage(prefix: string, n: nat): string {
    prefix + MARKER + Decimal(n)
  }

  lemma MarkerIsLast(prefix: string, n: nat)
    ensures LastIndex(FloodMessage(prefix, n), MARKER) == |prefix|
  {
    var s := FloodMessage(prefix, n);
    DecimalParses(n);
    assert s[|prefix|..|prefix| + |MARKER|] == MARKER;
    forall j | |prefix| < j <= |s| - |MARKER|
      ensures !OccursAt(s, MARKER, j)
    {
      var last := j + |MARKER| - 1;
      assert s[last] == Decimal(n)[last - |prefix| - |MARKER|];
      assert s[last] in Decimal(n) && MARKER[|MARKER| - 1] == ' ';
      assert s[j..j + |MARKER|][|MARKER| - 1] == s[last];
    }
    LastIndexFromIs(s, MARKER, |s| - |MARKER|, |prefix|);
  }

  lemma DigitsNeedNoTrim(n: nat)
    ensures TrimSpace(Decimal(n)) == Decimal(n)
  {
    DecimalParses(n);
    var s := Decimal(n);
    assert s[0] in s && s[|s| - 1] in s;
  }

  // The wait printed at the end of a flood error is the wait read back, whatever
  // stands before the marker - another marker included - as long as it is an int.
  lemma WaitIsReadBack(code: int, prefix: string, n: nat)
    requires code == 429 || code == 420
    ensures RetryAfter(TdError(code, FloodMessage(prefix, n))) == if n <= MAX_INT64 then Some(n) else None
  {
    var s := FloodMessage(prefix, n);
    MarkerIsLast(prefix, n);
    assert s[|prefix| + |MARKER|..] == Decimal(n);
    DigitsNeedNoTrim(n);
    AtoiDecimal(n);
  }

  lemma WaitFits(n: nat)
    ensures WaitOf(n) == n * SECOND <==> n <= LONGEST_WAIT
  {
  }

  // From the text to the guard: a flood error cools down exactly its scope, from
  // before now until n seconds after it, unless n is so large that its
  // nanoseconds overflow, when the end comes out wrong.
  lemma FloodRoundTrip(code: int, prefix: string, n: nat, scope: string, now: int, t: int)
    requires (code == 429 || code == 420) && n <= MAX_INT64
    ensures var e := TdError(code, FloodMessage(prefix, n)); var cds := Signals(scope, e, now);
      && cds != [] && cds[0].scope == scope
      && (cds[0].until == now + n * SECOND <==> n <= LONGEST_WAIT)
      && (forall c :: c in cds[1..] ==> c.scope == SPAM_LIMIT_SCOPE)
      && (cds[1..] == [] <==> LastIndex(e.message, "PEER_FLOOD") < 0)
      && (n <= LONGEST_WAIT ==>
            (Active(WithCooldown(map[], cds[0]), scope, t).Some? <==> t < now + n * SECOND))
      && (forall other :: other != scope ==> Active(WithCooldown(map[], cds[0]), other, t).None?)
  {
    WaitIsReadBack(code, prefix, n);
    WaitFits(n);
  }
}
