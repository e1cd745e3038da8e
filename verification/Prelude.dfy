/** Options, decimal rounding, sums and key-sorting used by every other module. */
module Prelude {

  datatype Option<+T> = None | Some(value: T)

  function Max(a: real, b: real): real {
    if a >= b then a else b
  }

  function Min(a: real, b: real): real {
    if a <= b then a else b
  }

  function Abs(a: real): real {
    if a >= 0.0 then a else -a
  }

  /** A product, kept whole in arguments about sums. */
  function Times(a: real, b: real): real {
    a * b
  }

  // ---- rounding: nearest, ties to even ----------------------------------------------------

  function RoundInt(y: real): int {
    var below := y.Floor;
    var rest := y - below as real;
    if rest < 0.5 then below
    else if rest > 0.5 then below + 1
    else if below % 2 == 0 then below
    else below + 1
  }

  lemma RoundIntNear(y: real)
    ensures -0.5 <= RoundInt(y) as real - y <= 0.5
  {
  }

  /** Halfway between two integers the even one is taken. */
  lemma HalfGoesToEven(n: int)
    ensures RoundInt(n as real + 0.5) == if n % 2 == 0 then n else n + 1
  {
    assert (n as real + 0.5).Floor == n;
  }

  /** Rounding is monotone. */
  lemma RoundIntMonotone(y: real, z: real)
    requires y <= z
    ensures RoundInt(y) <= RoundInt(z)
  {
    assert y.Floor <= z.Floor;
  }

  /** Round to four, six and eight decimals. */
  function Round4(x: real): real {
    RoundInt(x * 10000.0) as real / 10000.0
  }

  function Round6(x: real): real {
    RoundInt(x * 1000000.0) as real / 1000000.0
  }

  function Round8(x: real): real {
    RoundInt(x * 100000000.0) as real / 100000000.0
  }

  const HALF_MICRO := 0.0000005

  lemma Round6Near(x: real)
    ensures -HALF_MICRO <= Round6(x) - x <= HALF_MICRO
  {
    RoundIntNear(x * 1000000.0);
  }

  // ---- sums -------------------------------------------------------------------------------

  function Sum(xs: seq<real>): real {
    if xs == [] then 0.0 else Sum(xs[..|xs| - 1]) + xs[|xs| - 1]
  }

  // ---- sorting by a key (Python's `sorted`, which is stable) ---------------------------------

  datatype Key = Key(first: int, second: int, third: int) {
    predicate Less(other: Key) {
      || first < other.first
      || (first == other.first && second < other.second)
      || (first == other.first && second == other.second && third < other.third)
    }
  }

  function InsertByKey<T>(x: T, xs: seq<T>, key: T -> Key): seq<T> {
    if xs == [] then [x]
    else if key(xs[0]).Less(key(x)) then [xs[0]] + InsertByKey(x, xs[1..], key)
    else [x] + xs
  }

  function SortByKey<T>(xs: seq<T>, key: T -> Key): seq<T> {
    if xs == [] then [] else InsertByKey(xs[0], SortByKey(xs[1..], key), key)
  }

  ghost predicate StrictlySorted<T>(xs: seq<T>, key: T -> Key) {
    forall i, j :: 0 <= i < j < |xs| ==> key(xs[i]).Less(key(xs[j]))
  }

  ghost predicate DistinctKeys<T>(xs: seq<T>, key: T -> Key) {
    forall i, j :: 0 <= i < j < |xs| ==> key(xs[i]) != key(xs[j])
  }

  lemma {:induction false} InsertKeepsBag<T>(x: T, xs: seq<T>, key: T -> Key)
    ensures multiset(InsertByKey(x, xs, key)) == multiset{x} + multiset(xs)
  {
    if xs != [] {
      assert xs == [xs[0]] + xs[1..];
      if key(xs[0]).Less(key(x)) {
        InsertKeepsBag(x, xs[1..], key);
      }
    }
  }

  lemma {:induction false} SortPermutes<T>(xs: seq<T>, key: T -> Key)
    ensures multiset(SortByKey(xs, key)) == multiset(xs)
  {
    if xs != [] {
      assert xs == [xs[0]] + xs[1..];
      SortPermutes(xs[1..], key);
      InsertKeepsBag(xs[0], SortByKey(xs[1..], key), key);
    }
  }

  lemma SortMember<T>(xs: seq<T>, key: T -> Key, x: T)
    ensures x in SortByKey(xs, key) <==> x in xs
  {
    SortPermutes(xs, key);
    assert x in multiset(SortByKey(xs, key)) <==> x in multiset(xs);
  }

  lemma SortKeepsBag<T>(xs: seq<T>, key: T -> Key)
    ensures multiset(SortByKey(xs, key)) == multiset(xs)
    ensures |SortByKey(xs, key)| == |xs|
    ensures forall x :: x in SortByKey(xs, key) <==> x in xs
  {
    SortPermutes(xs, key);
    assert |multiset(SortByKey(xs, key))| == |multiset(xs)|;
    forall x
      ensures x in SortByKey(xs, key) <==> x in xs
    {
      SortMember(xs, key, x);
    }
  }

  lemma {:induction false} InsertSorted<T>(x: T, xs: seq<T>, key: T -> Key)
    requires StrictlySorted(xs, key)
    requires forall y :: y in xs ==> key(y) != key(x)
    ensures StrictlySorted(InsertByKey(x, xs, key), key)
  {
    if xs != [] && key(xs[0]).Less(key(x)) {
      InsertSorted(x, xs[1..], key);
      InsertKeepsBag(x, xs[1..], key);
      var rest := InsertByKey(x, xs[1..], key);
      forall j | 0 <= j < |rest|
        ensures key(xs[0]).Less(key(rest[j]))
      {
        assert rest[j] in multiset(rest);
        assert rest[j] == x || rest[j] in xs[1..];
      }
    }
  }

  lemma {:induction false} SortSorts<T>(xs: seq<T>, key: T -> Key)
    requires DistinctKeys(xs, key)
    ensures StrictlySorted(SortByKey(xs, key), key)
  {
    if xs != [] {
      SortSorts(xs[1..], key);
      forall y | y in SortByKey(xs[1..], key)
        ensures key(y) != key(xs[0])
      {
        SortMember(xs[1..], key, y);
        var i :| 1 <= i < |xs| && xs[i] == y;
      }
      InsertSorted(xs[0], SortByKey(xs[1..], key), key);
    }
  }

  /** Two strictly sorted sequences over the same elements are the same sequence. */
  lemma {:induction false} SortedUnique<T>(xs: seq<T>, ys: seq<T>, key: T -> Key)
    requires StrictlySorted(xs, key) && StrictlySorted(ys, key)
    requires forall x :: x in xs <==> x in ys
    ensures xs == ys
  {
    assert xs != [] ==> xs[0] in ys;
    assert ys != [] ==> ys[0] in xs;
    if xs != [] {
      assert xs[0] == ys[0];
      forall x
        ensures x in xs[1..] <==> x in ys[1..]
      {
        if x in xs[1..] {
          assert x in ys && x != ys[0];
        }
        if x in ys[1..] {
          assert x in xs && x != xs[0];
        }
      }
      SortedUnique(xs[1..], ys[1..], key);
    }
  }

  /** Sorted with ties: no later element is less than an earlier one. */
  ghost predicate NeverFalls<T>(xs: seq<T>, key: T -> Key) {
    forall i, j :: 0 <= i < j < |xs| ==> !key(xs[j]).Less(key(xs[i]))
  }

  lemma {:induction false} InsertNeverFalls<T>(x: T, xs: seq<T>, key: T -> Key)
    requires NeverFalls(xs, key)
    ensures NeverFalls(InsertByKey(x, xs, key), key)
  {
    if xs != [] {
      if key(xs[0]).Less(key(x)) {
        InsertNeverFalls(x, xs[1..], key);
        InsertKeepsBag(x, xs[1..], key);
        var rest := InsertByKey(x, xs[1..], key);
        forall j | 0 <= j < |rest|
          ensures !key(rest[j]).Less(key(xs[0]))
        {
          assert rest[j] in multiset(rest);
          assert rest[j] == x || rest[j] in xs[1..];
        }
      } else {
        forall j | 0 <= j < |xs|
          ensures !key(xs[j]).Less(key(x))
        {
          assert j > 0 ==> !key(xs[j]).Less(key(xs[0]));
        }
      }
    }
  }

  lemma {:induction false} SortNeverFalls<T>(xs: seq<T>, key: T -> Key)
    ensures NeverFalls(SortByKey(xs, key), key)
  {
    if xs != [] {
      SortNeverFalls(xs[1..], key);
      InsertNeverFalls(xs[0], SortByKey(xs[1..], key), key);
    }
  }
}
