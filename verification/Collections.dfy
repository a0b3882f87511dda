/** Small vocabulary shared by the models: optional values, sums, filters and
    the stable sort that JavaScript's Array.prototype.sort is specified to be. */
module Collections {

  datatype Option<+T> = None | Some(value: T)

  /** The map at a key, or nothing. */
  function At<K, V>(m: map<K, V>, k: K): Option<V> { if k in m then Some(m[k]) else None }

  function Upto(n: nat): (s: seq<nat>)
    ensures |s| == n
    ensures forall i :: 0 <= i < n ==> s[i] == i
  {
    seq(n, i => i)
  }

  // ----- decimal numerals -----

  predicate IsDigit(c: char) { '0' <= c <= '9' }

  function DigitOf(n: nat): char
    requires n < 10
  {
    '0' + n as char
  }

  function ValueOf(c: char): nat
    requires IsDigit(c)
  {
    (c - '0') as nat
  }

  /** The number as JavaScript prints it. */
  function Decimal(n: nat): (s: string)
    ensures s != [] && forall i :: 0 <= i < |s| ==> IsDigit(s[i])
  {
    if n < 10 then [DigitOf(n)] else Decimal(n / 10) + [DigitOf(n % 10)]
  }

  // ----- white space, as String.prototype.trim and the regex \s know it -----

  predicate IsSpace(c: char) {
    c == ' ' || '\t' <= c <= '\r' || 0x2000 <= c as int <= 0x200A
    || c as int in [0xA0, 0x1680, 0x2028, 0x2029, 0x202F, 0x205F, 0x3000, 0xFEFF]
  }

  predicate AllSpace(s: string) { forall i :: 0 <= i < |s| ==> IsSpace(s[i]) }

  function SkipSpaces(s: string): string {
    if s == "" || !IsSpace(s[0]) then s else SkipSpaces(s[1..])
  }

  function TrimEnd(s: string): string {
    if s == "" || !IsSpace(s[|s| - 1]) then s else TrimEnd(s[..|s| - 1])
  }

  function Trim(s: string): string { TrimEnd(SkipSpaces(s)) }

  lemma {:induction false} SkipSpacesCuts(s: string)
    ensures var t := SkipSpaces(s);
            && |t| <= |s| && t == s[|s| - |t|..] && (forall i :: 0 <= i < |s| - |t| ==> IsSpace(s[i]))
            && (t != "" ==> !IsSpace(t[0]))
  {
    if s != "" && IsSpace(s[0]) {
      SkipSpacesCuts(s[1..]);
      assert forall i :: 0 < i < |s| ==> s[i] == s[1..][i - 1];
    }
  }

  lemma {:induction false} TrimEndCuts(s: string)
    ensures var t := TrimEnd(s);
            && t <= s && (forall i :: |t| <= i < |s| ==> IsSpace(s[i]))
            && (t != "" ==> !IsSpace(t[|t| - 1]))
  {
    if s != "" && IsSpace(s[|s| - 1]) { TrimEndCuts(s[..|s| - 1]); }
  }

  // ----- filtering -----

  function Filter<T>(p: T -> bool, xs: seq<T>): (ys: seq<T>)
    ensures |ys| <= |xs|
  {
    if xs == [] then []
    else if p(xs[0]) then [xs[0]] + Filter(p, xs[1..])
    else Filter(p, xs[1..])
  }

  lemma {:induction false} FilterMembers<T>(p: T -> bool, xs: seq<T>)
    ensures forall y :: y in Filter(p, xs) ==> y in xs && p(y)
    ensures forall y :: y in xs && p(y) ==> y in Filter(p, xs)
  {
    if xs != [] { FilterMembers(p, xs[1..]); }
  }

  lemma {:induction false} FilterCons<T>(p: T -> bool, x: T, xs: seq<T>)
    ensures Filter(p, [x] + xs) == if p(x) then [x] + Filter(p, xs) else Filter(p, xs)
  {
    assert ([x] + xs)[1..] == xs;
  }

  lemma {:induction false} Reassociate<T>(a: seq<T>, b: seq<T>, c: seq<T>)
    ensures a + (b + c) == a + b + c
  {
  }

  lemma {:induction false} FilterAppend<T>(p: T -> bool, xs: seq<T>, ys: seq<T>)
    ensures Filter(p, xs + ys) == Filter(p, xs) + Filter(p, ys)
  {
    if xs == [] {
      assert xs + ys == ys;
    } else {
      var x, rest := xs[0], xs[1..];
      FilterAppend(p, rest, ys);
      assert xs + ys == [x] + (rest + ys);
      FilterCons(p, x, rest + ys);
      Reassociate([x], Filter(p, rest), Filter(p, ys));
    }
  }

  lemma {:induction false} FilterAll<T>(p: T -> bool, xs: seq<T>)
    requires forall x :: x in xs ==> p(x)
    ensures Filter(p, xs) == xs
  {
    if xs != [] { FilterAll(p, xs[1..]); }
  }

  lemma {:induction false} FilterSame<T>(p: T -> bool, q: T -> bool, xs: seq<T>)
    requires forall x :: x in xs ==> p(x) == q(x)
    ensures Filter(p, xs) == Filter(q, xs)
  {
    if xs != [] { FilterSame(p, q, xs[1..]); }
  }

  lemma {:induction false} FilterMultiset<T(!new)>(p: T -> bool, xs: seq<T>, ys: seq<T>)
    requires multiset(xs) == multiset(ys)
    ensures multiset(Filter(p, xs)) == multiset(Filter(p, ys))
  {
    var a, b := multiset(Filter(p, xs)), multiset(Filter(p, ys));
    forall x ensures a[x] == b[x] {
      FilterCount(p, xs, x);
      FilterCount(p, ys, x);
    }
    assert a == b;
  }

  lemma {:induction false} FilterCount<T>(p: T -> bool, xs: seq<T>, x: T)
    ensures multiset(Filter(p, xs))[x] == if p(x) then multiset(xs)[x] else 0
  {
    if xs != [] {
      assert xs == [xs[0]] + xs[1..];
      FilterCount(p, xs[1..], x);
    }
  }

  // ----- sums -----

  function SumInt<T>(f: T -> int, xs: seq<T>): int {
    if xs == [] then 0 else f(xs[0]) + SumInt(f, xs[1..])
  }

  lemma {:induction false} SumIntAppend<T>(f: T -> int, xs: seq<T>, ys: seq<T>)
    ensures SumInt(f, xs + ys) == SumInt(f, xs) + SumInt(f, ys)
  {
    if xs == [] {
      assert xs + ys == ys;
    } else {
      assert (xs + ys)[1..] == xs[1..] + ys;
      SumIntAppend(f, xs[1..], ys);
    }
  }

  lemma {:induction false} MultisetWithout<T>(xs: seq<T>, k: nat)
    requires k < |xs|
    ensures multiset(xs[..k] + xs[k + 1..]) == multiset(xs) - multiset{xs[k]}
  {
    assert xs == xs[..k] + [xs[k]] + xs[k + 1..];
  }

  lemma {:induction false} MultisetTail<T>(xs: seq<T>)
    requires xs != []
    ensures multiset(xs[1..]) == multiset(xs) - multiset{xs[0]}
  {
    assert xs == [xs[0]] + xs[1..];
  }

  lemma {:induction false} SumIntMultiset<T>(f: T -> int, xs: seq<T>, ys: seq<T>)
    requires multiset(xs) == multiset(ys)
    ensures SumInt(f, xs) == SumInt(f, ys)
    decreases |xs|
  {
    if xs == [] {
      assert ys == [] by { assert |multiset(ys)| == |ys|; }
    } else {
      assert xs[0] in multiset(ys);
      var k :| 0 <= k < |ys| && ys[k] == xs[0];
      MultisetTail(xs);
      MultisetWithout(ys, k);
      SumIntMultiset(f, xs[1..], ys[..k] + ys[k + 1..]);
      SumIntWithout(f, ys, k);
    }
  }

  lemma {:induction false} SumIntWithout<T>(f: T -> int, xs: seq<T>, k: nat)
    requires k < |xs|
    ensures SumInt(f, xs) == f(xs[k]) + SumInt(f, xs[..k] + xs[k + 1..])
  {
    if k == 0 {
      assert xs[..0] + xs[1..] == xs[1..];
    } else {
      SumIntWithout(f, xs[1..], k - 1);
      assert (xs[..k] + xs[k + 1..])[1..] == xs[1..][..k - 1] + xs[1..][k..];
    }
  }

  // ----- the stable sort -----

  /** `le(a, b)` stands for a comparator answering at most zero. */
  ghost predicate TotalPreorder<T(!new)>(le: (T, T) -> bool) {
    && (forall a, b :: le(a, b) || le(b, a))
    && (forall a, b, c :: le(a, b) && le(b, c) ==> le(a, c))
  }

  ghost predicate Sorted<T>(le: (T, T) -> bool, xs: seq<T>) {
    forall i, j :: 0 <= i < j < |xs| ==> le(xs[i], xs[j])
  }

  function Insert<T>(le: (T, T) -> bool, x: T, xs: seq<T>): (ys: seq<T>)
    ensures multiset(ys) == multiset(xs) + multiset{x}
    ensures |ys| == |xs| + 1
  {
    if xs == [] then [x]
    else if le(x, xs[0]) then [x] + xs
    else
      assert xs == [xs[0]] + xs[1..];
      [xs[0]] + Insert(le, x, xs[1..])
  }

  function StableSort<T>(le: (T, T) -> bool, xs: seq<T>): (ys: seq<T>)
    ensures multiset(ys) == multiset(xs)
    ensures |ys| == |xs|
  {
    if xs == [] then []
    else
      assert xs == [xs[0]] + xs[1..];
      Insert(le, xs[0], StableSort(le, xs[1..]))
  }

  lemma {:induction false} InsertSorted<T(!new)>(le: (T, T) -> bool, x: T, xs: seq<T>)
    requires TotalPreorder(le) && Sorted(le, xs)
    ensures Sorted(le, Insert(le, x, xs))
  {
    if xs != [] && !le(x, xs[0]) {
      InsertSorted(le, x, xs[1..]);
      var tail := Insert(le, x, xs[1..]);
      forall j | 0 <= j < |tail| ensures le(xs[0], tail[j]) {
        assert tail[j] in multiset(tail);
        assert tail[j] in xs[1..] || tail[j] == x;
      }
    }
  }

  lemma {:induction false} StableSortSorted<T(!new)>(le: (T, T) -> bool, xs: seq<T>)
    requires TotalPreorder(le)
    ensures Sorted(le, StableSort(le, xs))
  {
    if xs != [] {
      StableSortSorted(le, xs[1..]);
      InsertSorted(le, xs[0], StableSort(le, xs[1..]));
    }
  }

  lemma {:induction false} InsertFirst<T>(le: (T, T) -> bool, x: T, xs: seq<T>)
    requires forall y :: y in xs ==> le(x, y)
    ensures Insert(le, x, xs) == [x] + xs
  {
  }

  lemma {:induction false} InsertBehind<T>(le: (T, T) -> bool, x: T, head: T, xs: seq<T>)
    requires !le(x, head)
    ensures Insert(le, x, [head] + xs) == [head] + Insert(le, x, xs)
  {
    assert ([head] + xs)[1..] == xs;
  }

  lemma {:induction false} FilterInsert<T(!new)>(le: (T, T) -> bool, p: T -> bool, x: T, xs: seq<T>)
    requires TotalPreorder(le) && Sorted(le, xs)
    ensures Filter(p, Insert(le, x, xs)) ==
            if p(x) then Insert(le, x, Filter(p, xs)) else Filter(p, xs)
  {
    if xs == [] {
    } else if le(x, xs[0]) {
      FilterCons(p, x, xs);
      FilterMembers(p, xs);
      assert forall y :: y in Filter(p, xs) ==> le(x, y) by {
        assert forall y :: y in xs ==> le(xs[0], y);
      }
      InsertFirst(le, x, Filter(p, xs));
    } else {
      FilterInsert(le, p, x, xs[1..]);
      FilterCons(p, xs[0], Insert(le, x, xs[1..]));
      InsertBehind(le, x, xs[0], Filter(p, xs[1..]));
    }
  }

  lemma {:induction false} SortCons<T>(le: (T, T) -> bool, x: T, xs: seq<T>)
    ensures StableSort(le, [x] + xs) == Insert(le, x, StableSort(le, xs))
  {
    assert ([x] + xs)[1..] == xs;
  }

  /** Sorting stably and then filtering is filtering and then sorting stably. */
  lemma {:induction false} StableSortCommutesWithFilter<T(!new)>(le: (T, T) -> bool, p: T -> bool, xs: seq<T>)
    requires TotalPreorder(le)
    ensures Filter(p, StableSort(le, xs)) == StableSort(le, Filter(p, xs))
  {
    if xs != [] {
      StableSortCommutesWithFilter(le, p, xs[1..]);
      StableSortSorted(le, xs[1..]);
      FilterInsert(le, p, xs[0], StableSort(le, xs[1..]));
      SortCons(le, xs[0], Filter(p, xs[1..]));
    }
  }

  /** Elements the comparator cannot tell apart keep their order. */
  lemma {:induction false} SortingTies<T(!new)>(le: (T, T) -> bool, xs: seq<T>, x: T)
    requires TotalPreorder(le)
    requires forall y :: y in xs ==> le(x, y) && le(y, x)
    ensures StableSort(le, xs) == xs
  {
    if xs != [] {
      SortingTies(le, xs[1..], x);
      InsertFirst(le, xs[0], xs[1..]);
    }
  }

  /** With ties impossible, a sorted sequence is fixed by its elements. */
  lemma {:induction false} SortedIsUnique<T(!new)>(le: (T, T) -> bool, xs: seq<T>, ys: seq<T>)
    requires TotalPreorder(le)
    requires forall a, b :: a in xs && b in xs && le(a, b) && le(b, a) ==> a == b
    requires multiset(xs) == multiset(ys)
    requires Sorted(le, xs) && Sorted(le, ys)
    ensures xs == ys
    decreases |xs|
  {
    assert |multiset(xs)| == |xs| && |multiset(ys)| == |ys|;
    if xs != [] {
      assert ys[0] in multiset(xs) && xs[0] in multiset(ys);
      assert le(xs[0], ys[0]) && le(ys[0], xs[0]);
      MultisetTail(xs);
      MultisetTail(ys);
      assert forall y :: y in xs[1..] ==> y in xs;
      SortedIsUnique(le, xs[1..], ys[1..]);
    }
  }
}
