/** The counters behind the operator's rate limits, and the transaction that
    takes from them all or nothing (internal/store/limits.go). */
module Counters {
  import opened Common

  // A counter: rule, session, and the start of the window.
  datatype Key = Key(limit: string, bucket: string, window: int)

  // n to be added to a counter whose rule allows max.
  datatype Use = Use(key: Key, n: int, max: int)

  type Table = map<Key, int>

  // The calls and max columns are 32-bit.
  const MAX_INT4 := 0x7fff_ffff

  predicate InInt4(n: int) {
    -MAX_INT4 - 1 <= n <= MAX_INT4
  }

  datatype Taken = Counted | Refused(index: nat) | Failed

  // One INSERT ... ON CONFLICT DO UPDATE ... WHERE: it writes a row, writes none,
  // or fails because a number does not fit its column.
  datatype Effect = Written(table: Table) | NoRow | OutOfRange

  function TakeOne(t: Table, u: Use): Effect {
    if !InInt4(u.n) then OutOfRange
    else if u.n > u.max then NoRow
    else if u.key !in t then Written(t[u.key := u.n])
    else if !InInt4(t[u.key] + u.n) then OutOfRange
    else if t[u.key] + u.n <= u.max then Written(t[u.key := t[u.key] + u.n])
    else NoRow
  }

  // The transaction from its i-th use on; only a commit changes the table.
  function TakeFrom(t: Table, tx: Table, uses: seq<Use>, i: nat): (Table, Taken)
    requires i <= |uses|
    decreases |uses| - i
  {
    if i == |uses| then (tx, Counted)
    else
      match TakeOne(tx, uses[i])
      case Written(tx') => TakeFrom(t, tx', uses, i + 1)
      case NoRow => (t, Refused(i))
      case OutOfRange => (t, Failed)
  }

  function Take(t: Table, uses: seq<Use>): (Table, Taken) {
    TakeFrom(t, t, uses, 0)
  }

  function GiveOne(t: Table, u: Use): Table {
    if u.key in t then t[u.key := Max(t[u.key] - u.n, 0)] else t
  }

  function GiveBack(t: Table, uses: seq<Use>): Table {
    if uses == [] then t else GiveBack(GiveOne(t, uses[0]), uses[1..])
  }

  // DELETE ... WHERE window_start < before
  function Purge(t: Table, before: int): Table {
    map k | k in t && k.window >= before :: t[k]
  }

  // Counters reads 0 where there is no row.
  function Read(t: Table, k: Key): int {
    if k in t then t[k] else 0
  }

  class Store {
    var table: Table

    constructor ()
      ensures table == map[]
    {
      table := map[];
    }

    // Counted stands for an index of -1, Failed for an error.
    method TakeCounters(uses: seq<Use>) returns (taken: Taken)
      modifies this
      ensures (table, taken) == Take(old(table), uses)
    {
      var tx := table;
      for i := 0 to |uses|
        invariant table == old(table)
        invariant Take(old(table), uses) == TakeFrom(old(table), tx, uses, i)
      {
        match TakeOne(tx, uses[i]) {
          case Written(next) => tx := next;
          case NoRow => return Refused(i);
          case OutOfRange => return Failed;
        }
      }
      table := tx;
      taken := Counted;
    }

    method GiveBackCounters(uses: seq<Use>)
      modifies this
      ensures table == GiveBack(old(table), uses)
    {
      for i := 0 to |uses|
        invariant GiveBack(old(table), uses) == GiveBack(table, uses[i..])
      {
        if uses[i].key in table {
          table := table[uses[i].key := Max(table[uses[i].key] - uses[i].n, 0)];
        }
      }
    }

    method ReadCounters(keys: seq<Key>) returns (out: map<Key, int>)
      ensures out == map k | k in keys :: Read(table, k)
    {
      out := map[];
      for i := 0 to |keys|
        invariant out == map k | k in keys[..i] :: Read(table, k)
      {
        assert keys[..i + 1] == keys[..i] + [keys[i]];
        out := out[keys[i] := if keys[i] in table then table[keys[i]] else 0];
      }
      assert keys[..|keys|] == keys;
    }

    method PurgeCounters(before: int)
      modifies this
      ensures table == Purge(old(table), before)
    {
      table := map k | k in table && k.window >= before :: table[k];
    }
  }

  // --- the plain reading of the transaction ---

  // What a list of uses adds to one counter.
  function Weight(uses: seq<Use>, k: Key): int {
    if uses == [] then 0
    else Weight(uses[..|uses| - 1], k) + if uses[|uses| - 1].key == k then uses[|uses| - 1].n else 0
  }

  // Use i still fits its window after the uses before it are added.
  predicate Fits(t: Table, uses: seq<Use>, i: nat)
    requires i < |uses|
  {
    uses[i].n <= uses[i].max && Read(t, uses[i].key) + Weight(uses[..i], uses[i].key) + uses[i].n <= uses[i].max
  }

  predicate AllFit(t: Table, uses: seq<Use>, upTo: nat)
    requires upTo <= |uses|
  {
    forall j :: 0 <= j < upTo ==> Fits(t, uses, j)
  }

  // What the columns and the rules allow: counts fit their column, weights are
  // not negative, and every max is a 32-bit number.
  predicate Typed(t: Table, uses: seq<Use>) {
    && (forall k :: k in t ==> 0 <= t[k] <= MAX_INT4)
    && (forall u :: u in uses ==> u.n >= 0 && u.max <= MAX_INT4)
  }

  // Use i does not fit, and adding it overflows the column before that is seen.
  predicate Overflows(t: Table, uses: seq<Use>, i: nat)
    requires i < |uses|
  {
    var sum := Read(t, uses[i].key) + Weight(uses[..i], uses[i].key) + uses[i].n;
    uses[i].n > MAX_INT4 || (uses[i].n <= uses[i].max && sum > MAX_INT4)
  }

  predicate MisfitOverflows(t: Table, uses: seq<Use>, i: nat)
    requires i < |uses|
  {
    AllFit(t, uses, i) && !Fits(t, uses, i) && Overflows(t, uses, i)
  }

  // tx is t with the first i uses added.
  ghost predicate Added(t: Table, tx: Table, uses: seq<Use>, i: nat)
    requires i <= |uses|
  {
    && (forall k :: k in tx ==> 0 <= tx[k] <= MAX_INT4)
    && (forall k :: Read(tx, k) == Read(t, k) + Weight(uses[..i], k))
  }

  lemma WeightGrows(uses: seq<Use>, i: nat, k: Key)
    requires i < |uses|
    ensures Weight(uses[..i + 1], k) == Weight(uses[..i], k) + if uses[i].key == k then uses[i].n else 0
  {
    assert uses[..i + 1][..i] == uses[..i];
  }

  lemma AddOne(t: Table, tx: Table, uses: seq<Use>, i: nat)
    requires i < |uses| && Typed(t, uses) && Added(t, tx, uses, i)
    ensures TakeOne(tx, uses[i]).Written? <==> Fits(t, uses, i)
    ensures TakeOne(tx, uses[i]).OutOfRange? <==> !Fits(t, uses, i) && Overflows(t, uses, i)
    ensures TakeOne(tx, uses[i]).Written? ==> Added(t, TakeOne(tx, uses[i]).table, uses, i + 1)
  {
    var u := uses[i];
    assert u in uses && Read(tx, u.key) == Read(t, u.key) + Weight(uses[..i], u.key);
    if TakeOne(tx, u).Written? {
      var tx' := TakeOne(tx, u).table;
      forall k
        ensures Read(tx', k) == Read(t, k) + Weight(uses[..i + 1], k)
      {
        assert Read(tx, k) == Read(t, k) + Weight(uses[..i], k);
        WeightGrows(uses, i, k);
      }
    }
  }

  // From use i on, where the list first breaks off, if it does.
  function FirstMisfit(t: Table, uses: seq<Use>, i: nat): (m: Option<nat>)
    requires i <= |uses|
    ensures m.Some? ==> m.value < |uses|
    decreases |uses| - i
  {
    if i == |uses| then None else if Fits(t, uses, i) then FirstMisfit(t, uses, i + 1) else Some(i)
  }

  lemma {:induction false} FirstMisfitIs(t: Table, uses: seq<Use>, i: nat)
    requires i <= |uses| && AllFit(t, uses, i)
    ensures var m := FirstMisfit(t, uses, i);
      && (m.None? <==> AllFit(t, uses, |uses|))
      && (m.Some? ==> m.value < |uses| && AllFit(t, uses, m.value) && !Fits(t, uses, m.value))
    decreases |uses| - i
  {
    if i < |uses| && Fits(t, uses, i) {
      FirstMisfitIs(t, uses, i + 1);
    }
  }

  lemma {:induction false} TakeFromIs(t: Table, tx: Table, uses: seq<Use>, i: nat)
    requires i <= |uses| && Typed(t, uses) && Added(t, tx, uses, i)
    ensures var (after, taken) := TakeFrom(t, tx, uses, i); var m := FirstMisfit(t, uses, i);
      && (m.None? ==> taken == Counted && Added(t, after, uses, |uses|))
      && (m.Some? ==> after == t && taken == if Overflows(t, uses, m.value) then Failed else Refused(m.value))
    decreases |uses| - i
  {
    if i < |uses| {
      AddOne(t, tx, uses, i);
      if Fits(t, uses, i) {
        TakeFromIs(t, TakeOne(tx, uses[i]).table, uses, i + 1);
      }
    }
  }

  // All or nothing, repeated keys included: if every use fits after those before
  // it, all are added and nothing else; otherwise the table is unchanged and the
  // answer is the first that does not fit - unless adding that one overflows its
  // column, when the statement fails instead.
  lemma AllOrNothing(t: Table, uses: seq<Use>)
    requires Typed(t, uses)
    ensures var (after, taken) := Take(t, uses);
      && (taken == Counted <==> AllFit(t, uses, |uses|))
      && (taken == Counted ==> forall k :: Read(after, k) == Read(t, k) + Weight(uses, k))
      && (taken != Counted ==> after == t)
      && (taken.Refused? ==> taken.index < |uses| && AllFit(t, uses, taken.index)
                             && !Fits(t, uses, taken.index) && !Overflows(t, uses, taken.index))
      && (taken == Failed <==> exists i :: 0 <= i < |uses| && MisfitOverflows(t, uses, i))
  {
    assert uses[..0] == [];
    TakeFromIs(t, t, uses, 0);
    FirstMisfitIs(t, uses, 0);
    assert uses[..|uses|] == uses;
    var m := FirstMisfit(t, uses, 0);
    assert Take(t, uses).1 == Failed ==> MisfitOverflows(t, uses, m.value);
    forall i | 0 <= i < |uses| && MisfitOverflows(t, uses, i)
      ensures m == Some(i)
    {
    }
  }

  // The answer names the use that does not fit, and no other.
  lemma RefusedExactly(t: Table, uses: seq<Use>, i: nat)
    requires Typed(t, uses)
    ensures Take(t, uses).1 == Refused(i)
       <==> i < |uses| && AllFit(t, uses, i) && !Fits(t, uses, i) && !Overflows(t, uses, i)
  {
    assert uses[..0] == [];
    TakeFromIs(t, t, uses, 0);
    FirstMisfitIs(t, uses, 0);
  }

  // --- when a full window lets calls through ---

  // What the counters and rules look like when the rules hold: no call weighs more
  // than cap, no rule allows more than top, uses of one window agree on its max, and
  // no counter is beyond it.
  predicate Ordinary(t: Table, uses: seq<Use>, cap: int, top: int) {
    && Typed(t, uses)
    && (forall u :: u in uses ==> 1 <= u.n <= cap && 1 <= u.max <= top && Read(t, u.key) <= u.max)
    && (forall u, v :: u in uses && v in uses && u.key == v.key ==> u.max == v.max)
  }

  // While the uses before it fit, a counter stays within its max.
  lemma {:induction false} EarlierWithinMax(t: Table, uses: seq<Use>, i: nat, u: Use)
    requires i <= |uses| && AllFit(t, uses, i) && u in uses && Read(t, u.key) <= u.max
    requires forall v :: v in uses && v.key == u.key ==> v.max == u.max
    ensures Read(t, u.key) + Weight(uses[..i], u.key) <= u.max
  {
    if i > 0 {
      EarlierWithinMax(t, uses, i - 1, u);
      WeightGrows(uses, i - 1, u.key);
      assert Fits(t, uses, i - 1) && uses[i - 1] in uses;
    }
  }

  // As long as the largest max plus the heaviest call fits the column, a call is
  // counted or refused, never let through uncounted.
  lemma NeverFailsWithin(t: Table, uses: seq<Use>, cap: int, top: int)
    requires Ordinary(t, uses, cap, top) && cap <= MAX_INT4 && top + Min(cap, top) <= MAX_INT4
    ensures Take(t, uses).1 != Failed
  {
    AllOrNothing(t, uses);
    forall i | 0 <= i < |uses| && AllFit(t, uses, i)
      ensures !Overflows(t, uses, i)
    {
      assert uses[i] in uses;
      EarlierWithinMax(t, uses, i, uses[i]);
    }
  }

  // Beyond that the overflow is real: on a full counter a call of weight n is
  // refused, unless adding it leaves the column, when the statement fails and the
  // call goes out.
  lemma FullCounterFailsIff(k: Key, n: int, max: int)
    requires 1 <= n <= max <= MAX_INT4
    ensures var full := map[k := max]; var uses := [Use(k, n, max)];
      && Ordinary(full, uses, n, max) && !Fits(full, uses, 0)
      && Take(full, uses) == (full, if max + n > MAX_INT4 then Failed else Refused(0))
  {
    assert [Use(k, n, max)][..0] == [];
  }

  // So for every bound on a call's weight and on the rules, some take fails if and
  // only if their sum leaves the column.
  lemma SomeTakeFailsIff(cap: int, top: int)
    requires 1 <= cap <= MAX_INT4 && 1 <= top <= MAX_INT4
    ensures (exists t, uses :: Ordinary(t, uses, cap, top) && Take(t, uses).1 == Failed)
       <==> top + Min(cap, top) > MAX_INT4
  {
    var k := Key("", "", 0);
    var t, uses := map[k := top], [Use(k, Min(cap, top), top)];
    FullCounterFailsIff(k, Min(cap, top), top);
    if top + Min(cap, top) > MAX_INT4 {
      assert Ordinary(t, uses, cap, top) && Take(t, uses).1 == Failed;
    } else {
      forall t: Table, uses: seq<Use> | Ordinary(t, uses, cap, top)
        ensures Take(t, uses).1 != Failed
      {
        NeverFailsWithin(t, uses, cap, top);
      }
    }
  }

  // A weight is the length of a JSON array of a request body of at most 8 MiB: two
  // bytes an element.
  const HEAVIEST_CALL := 0x40_0000

  // With a max up to this nothing goes out uncounted.
  const SAFE_MAX := MAX_INT4 - HEAVIEST_CALL

  // --- giving back ---

  lemma {:induction false} WeightOfTail(uses: seq<Use>, k: Key)
    requires uses != []
    ensures Weight(uses, k) == (if uses[0].key == k then uses[0].n else 0) + Weight(uses[1..], k)
    decreases |uses|
  {
    if |uses| > 1 {
      var init := uses[..|uses| - 1];
      WeightOfTail(init, k);
      assert init[1..] == uses[1..][..|uses| - 2];
    }
  }

  lemma {:induction false} WeightNotNegative(uses: seq<Use>, k: Key)
    requires forall u :: u in uses ==> u.n >= 0
    ensures Weight(uses, k) >= 0
  {
    if uses != [] {
      WeightNotNegative(uses[..|uses| - 1], k);
    }
  }

  // Giving back what a counter holds subtracts it exactly: the floor at 0 is
  // never reached.
  lemma {:induction false} GiveBackSubtracts(t: Table, uses: seq<Use>)
    requires forall u :: u in uses ==> u.n >= 0
    requires forall k :: Weight(uses, k) <= Read(t, k)
    ensures forall k :: Read(GiveBack(t, uses), k) == Read(t, k) - Weight(uses, k)
    decreases |uses|
  {
    if uses != [] {
      var t' := GiveOne(t, uses[0]);
      forall k
        ensures Read(t', k) == Read(t, k) - (if uses[0].key == k then uses[0].n else 0)
        ensures Weight(uses[1..], k) <= Read(t', k)
      {
        WeightOfTail(uses, k);
        WeightNotNegative(uses[1..], k);
        assert Weight(uses, k) <= Read(t, k);
      }
      GiveBackSubtracts(t', uses[1..]);
      forall k
        ensures Read(GiveBack(t, uses), k) == Read(t, k) - Weight(uses, k)
      {
        WeightOfTail(uses, k);
      }
    }
  }

  // Taking and giving back is as if nothing had happened, for every counter read.
  lemma GiveBackUndoesTake(t: Table, uses: seq<Use>, k: Key)
    requires Typed(t, uses) && Take(t, uses).1 == Counted
    ensures Read(GiveBack(Take(t, uses).0, uses), k) == Read(t, k)
  {
    AllOrNothing(t, uses);
    GiveBackSubtracts(Take(t, uses).0, uses);
  }
}
