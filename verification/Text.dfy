/** The string operations the policies rest on: sorting, joining, decimals and
    searching, each with the fact that makes it reversible. */
module Text {
  import opened Common

  // --- order and sorting ---

  // Go compares strings byte by byte.
  predicate Leq(a: string, b: string) {
    a == [] || (b != [] && (a[0] < b[0] || (a[0] == b[0] && Leq(a[1..], b[1..]))))
  }

  lemma {:induction false} LeqTotal(a: string, b: string)
    ensures Leq(a, b) || Leq(b, a)
  {
    if a != [] && b != [] {
      LeqTotal(a[1..], b[1..]);
    }
  }

  lemma {:induction false} LeqAntisymmetric(a: string, b: string)
    requires Leq(a, b) && Leq(b, a)
    ensures a == b
  {
    if a != [] && b != [] {
      LeqAntisymmetric(a[1..], b[1..]);
      assert a == [a[0]] + a[1..] && b == [b[0]] + b[1..];
    }
  }

  lemma {:induction false} LeqTransitive(a: string, b: string, c: string)
    requires Leq(a, b) && Leq(b, c)
    ensures Leq(a, c)
  {
    if a != [] && a[0] == b[0] == c[0] {
      LeqTransitive(a[1..], b[1..], c[1..]);
    }
  }

  predicate Sorted(xs: seq<string>) {
    forall i, j :: 0 <= i < j < |xs| ==> Leq(xs[i], xs[j])
  }

  function Insert(x: string, xs: seq<string>): seq<string> {
    if xs == [] then [x] else if Leq(x, xs[0]) then [x] + xs else [xs[0]] + Insert(x, xs[1..])
  }

  // slices.Sort: any sorting function is this one, as SortedIsUnique shows.
  function Sort(xs: seq<string>): seq<string> {
    if xs == [] then [] else Insert(xs[0], Sort(xs[1..]))
  }

  lemma {:induction false} InsertSorts(x: string, xs: seq<string>)
    requires Sorted(xs)
    ensures Sorted(Insert(x, xs)) && multiset(Insert(x, xs)) == multiset(xs) + multiset{x}
  {
    if xs == [] {
    } else if Leq(x, xs[0]) {
      forall j | 0 <= j < |xs|
        ensures Leq(x, xs[j])
      {
        if j > 0 {
          LeqTransitive(x, xs[0], xs[j]);
        }
      }
    } else {
      LeqTotal(x, xs[0]);
      InsertSorts(x, xs[1..]);
      var rest := Insert(x, xs[1..]);
      assert xs == [xs[0]] + xs[1..];
      forall j | 0 <= j < |rest|
        ensures Leq(xs[0], rest[j])
      {
        assert rest[j] in multiset(rest);
        assert rest[j] == x || rest[j] in xs[1..];
      }
    }
  }

  lemma {:induction false} SortSorts(xs: seq<string>)
    ensures Sorted(Sort(xs)) && multiset(Sort(xs)) == multiset(xs)
  {
    if xs != [] {
      SortSorts(xs[1..]);
      InsertSorts(xs[0], Sort(xs[1..]));
      assert xs == [xs[0]] + xs[1..];
    }
  }

  lemma {:induction false} SortedIsUnique(xs: seq<string>, ys: seq<string>)
    requires Sorted(xs) && Sorted(ys) && multiset(xs) == multiset(ys)
    ensures xs == ys
  {
    assert |multiset(xs)| == |xs| && |multiset(ys)| == |ys|;
    if xs != [] {
      SameHead(xs, ys);
      TailMultiset(xs);
      TailMultiset(ys);
      assert xs == [xs[0]] + xs[1..] && ys == [ys[0]] + ys[1..];
      SortedIsUnique(xs[1..], ys[1..]);
    }
  }

  lemma TailMultiset(xs: seq<string>)
    requires xs != []
    ensures multiset(xs[1..]) == multiset(xs) - multiset{xs[0]}
  {
    assert xs == [xs[0]] + xs[1..];
  }

  lemma SameHead(xs: seq<string>, ys: seq<string>)
    requires Sorted(xs) && Sorted(ys) && multiset(xs) == multiset(ys) && xs != [] && ys != []
    ensures xs[0] == ys[0]
  {
    assert xs[0] in multiset(xs) && ys[0] in multiset(ys);
    HeadLeast(xs, ys[0]);
    HeadLeast(ys, xs[0]);
    LeqAntisymmetric(xs[0], ys[0]);
  }

  lemma HeadLeast(xs: seq<string>, y: string)
    requires Sorted(xs) && xs != [] && y in multiset(xs)
    ensures Leq(xs[0], y)
  {
    var j :| 0 <= j < |xs| && xs[j] == y;
    if j == 0 {
      LeqTotal(y, y);
    }
  }

  // --- joining ---

  function Join(xs: seq<string>): string {
    if xs == [] then "" else if |xs| == 1 then xs[0] else xs[0] + "," + Join(xs[1..])
  }

  // The fields of a comma-separated list.
  function Fields(s: string): (fields: seq<string>)
    ensures |fields| >= 1
  {
    if s == [] then [""]
    else
      var rest := Fields(s[1..]);
      if s[0] == ',' then [""] + rest else [[s[0]] + rest[0]] + rest[1..]
  }

  lemma {:induction false} FirstField(x: string, t: string)
    requires ',' !in x
    ensures Fields(x + t) == [x + Fields(t)[0]] + Fields(t)[1..]
  {
    if x == [] {
      assert x + t == t && x + Fields(t)[0] == Fields(t)[0];
    } else {
      FirstField(x[1..], t);
      assert (x + t)[1..] == x[1..] + t;
      assert [x[0]] + (x[1..] + Fields(t)[0]) == x + Fields(t)[0];
    }
  }

  // A list of comma-free strings can be read back from its join.
  lemma {:induction false} FieldsOfJoin(xs: seq<string>)
    requires xs != [] && forall x :: x in xs ==> ',' !in x
    ensures Fields(Join(xs)) == xs
  {
    if |xs| == 1 {
      FirstField(xs[0], "");
      assert xs[0] + "" == xs[0];
    } else {
      var t := "," + Join(xs[1..]);
      FieldsOfJoin(xs[1..]);
      FirstField(xs[0], t);
      assert t[1..] == Join(xs[1..]);
      assert xs[0] + "," + Join(xs[1..]) == xs[0] + t;
      assert xs[0] + "" == xs[0];
    }
  }

  // --- decimals ---

  predicate IsDigit(c: char) {
    '0' <= c <= '9'
  }

  function Digit(d: nat): char
    requires d < 10
  {
    '0' + (d as char)
  }

  function Decimal(n: nat): string {
    if n < 10 then [Digit(n)] else Decimal(n / 10) + [Digit(n % 10)]
  }

  function ParseDigits(s: string): Option<nat> {
    if s == [] then Some(0)
    else
      match ParseDigits(s[..|s| - 1])
      case Some(n) => if IsDigit(s[|s| - 1]) then Some(10 * n + (s[|s| - 1] as int - '0' as int)) else None
      case None => None
  }

  const MAX_INT64 := 0x7fff_ffff_ffff_ffff

  // strconv.Atoi: an optional sign and digits, within the range of an int.
  function Atoi(s: string): Option<int> {
    var signed := s != [] && (s[0] == '-' || s[0] == '+');
    var digits := if signed then s[1..] else s;
    if digits == [] then None
    else
      match ParseDigits(digits)
      case None => None
      case Some(n) =>
        var m: int := n;
        if signed && s[0] == '-' then (if n <= MAX_INT64 + 1 then Some(-m) else None)
        else if n <= MAX_INT64 then Some(m) else None
  }

  lemma {:induction false} DecimalParses(n: nat)
    ensures Decimal(n) != [] && ParseDigits(Decimal(n)) == Some(n)
    ensures forall c :: c in Decimal(n) ==> IsDigit(c)
  {
    var s := Decimal(n);
    if n < 10 {
      assert s[..0] == [];
    } else {
      DecimalParses(n / 10);
      assert s[..|s| - 1] == Decimal(n / 10);
    }
  }

  lemma AtoiDecimal(n: nat)
    ensures Atoi(Decimal(n)) == if n <= MAX_INT64 then Some(n) else None
  {
    DecimalParses(n);
    assert Decimal(n)[0] in Decimal(n);
  }

  // --- searching and trimming ---

  predicate OccursAt(s: string, sub: string, i: int) {
    0 <= i <= |s| - |sub| && s[i..i + |sub|] == sub
  }

  // strings.LastIndex: the last occurrence, or -1.
  function LastIndex(s: string, sub: string): int {
    LastIndexFrom(s, sub, |s| - |sub|)
  }

  function LastIndexFrom(s: string, sub: string, i: int): int
    decreases i + 1
  {
    if i < 0 then -1 else if OccursAt(s, sub, i) then i else LastIndexFrom(s, sub, i - 1)
  }

  lemma {:induction false} LastIndexFromIs(s: string, sub: string, i: int, at: int)
    requires OccursAt(s, sub, at) && at <= i
    requires forall j :: at < j <= i ==> !OccursAt(s, sub, j)
    ensures LastIndexFrom(s, sub, i) == at
    decreases i
  {
    if i > at {
      LastIndexFromIs(s, sub, i - 1, at);
    }
  }

  // unicode.IsSpace
  predicate IsSpace(c: char) {
    || c == ' ' || '\t' <= c <= '\r' || c == '\U{85}' || c == '\U{A0}' || c == '\U{1680}'
    || '\U{2000}' <= c <= '\U{200A}' || c == '\U{2028}' || c == '\U{2029}' || c == '\U{202F}'
    || c == '\U{205F}' || c == '\U{3000}'
  }

  function TrimLeft(s: string): string {
    if s != [] && IsSpace(s[0]) then TrimLeft(s[1..]) else s
  }

  function TrimRight(s: string): string {
    if s != [] && IsSpace(s[|s| - 1]) then TrimRight(s[..|s| - 1]) else s
  }

  function TrimSpace(s: string): string {
    TrimRight(TrimLeft(s))
  }
}
