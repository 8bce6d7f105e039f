/** Lexicographic order on strings, and sorting by a string key. */
module Ordering {

  predicate LexLe(a: string, b: string) {
    a == "" || (b != "" && (a[0] < b[0] || (a[0] == b[0] && LexLe(a[1..], b[1..]))))
  }

  lemma {:induction false} LexReflexive(a: string)
    ensures LexLe(a, a)
  {
    if a != "" { LexReflexive(a[1..]); }
  }

  lemma {:induction false} LexTotal(a: string, b: string)
    ensures LexLe(a, b) || LexLe(b, a)
  {
    if a != "" && b != "" && a[0] == b[0] { LexTotal(a[1..], b[1..]); }
  }

  lemma {:induction false} LexAntisymmetric(a: string, b: string)
    requires LexLe(a, b) && LexLe(b, a)
    ensures a == b
  {
    if a != "" {
      LexAntisymmetric(a[1..], b[1..]);
      assert a == [a[0]] + a[1..] && b == [b[0]] + b[1..];
    }
  }

  lemma {:induction false} LexTransitive(a: string, b: string, c: string)
    requires LexLe(a, b) && LexLe(b, c)
    ensures LexLe(a, c)
  {
    if a != "" && a[0] == b[0] == c[0] { LexTransitive(a[1..], b[1..], c[1..]); }
  }

  ghost predicate SortedBy<T(!new)>(key: T -> string, xs: seq<T>) {
    forall i, j :: 0 <= i < j < |xs| ==> LexLe(key(xs[i]), key(xs[j]))
  }

  ghost predicate InjectiveOn<T(!new)>(key: T -> string, xs: seq<T>) {
    forall x, y :: x in xs && y in xs && key(x) == key(y) ==> x == y
  }

  function Insert<T>(key: T -> string, x: T, xs: seq<T>): (r: seq<T>)
    ensures multiset(r) == multiset(xs) + multiset{x}
  {
    if xs == [] || LexLe(key(x), key(xs[0])) then [x] + xs
    else
      assert xs == [xs[0]] + xs[1..];
      [xs[0]] + Insert(key, x, xs[1..])
  }

  function Sort<T>(key: T -> string, xs: seq<T>): (r: seq<T>)
    ensures multiset(r) == multiset(xs)
  {
    if xs == [] then []
    else
      assert xs == [xs[0]] + xs[1..];
      Insert(key, xs[0], Sort(key, xs[1..]))
  }

  lemma SameElements<T>(xs: seq<T>, ys: seq<T>, x: T)
    requires multiset(xs) == multiset(ys)
    ensures x in xs <==> x in ys
  {
    assert x in xs <==> x in multiset(xs);
    assert x in ys <==> x in multiset(ys);
  }

  lemma {:induction false} InsertSorted<T(!new)>(key: T -> string, x: T, xs: seq<T>)
    requires SortedBy(key, xs)
    ensures SortedBy(key, Insert(key, x, xs))
  {
    if xs == [] {
    } else if LexLe(key(x), key(xs[0])) {
      forall j | 0 <= j < |xs| ensures LexLe(key(x), key(xs[j])) {
        if j > 0 { LexTransitive(key(x), key(xs[0]), key(xs[j])); }
      }
    } else {
      LexTotal(key(x), key(xs[0]));
      InsertSorted(key, x, xs[1..]);
      var rest := Insert(key, x, xs[1..]);
      forall j | 0 <= j < |rest| ensures LexLe(key(xs[0]), key(rest[j])) {
        assert rest[j] in multiset(rest);
        assert rest[j] == x || rest[j] in multiset(xs[1..]);
        if rest[j] != x {
          var k :| 0 <= k < |xs[1..]| && xs[1..][k] == rest[j];
          assert xs[k + 1] == rest[j];
        }
      }
    }
  }

  lemma {:induction false} SortSorted<T(!new)>(key: T -> string, xs: seq<T>)
    ensures SortedBy(key, Sort(key, xs))
  {
    if xs != [] {
      SortSorted(key, xs[1..]);
      InsertSorted(key, xs[0], Sort(key, xs[1..]));
    }
  }

  lemma SmallestFirst<T(!new)>(key: T -> string, xs: seq<T>, ys: seq<T>)
    requires xs != [] && multiset(xs) == multiset(ys) && ys != []
    requires SortedBy(key, xs)
    ensures LexLe(key(xs[0]), key(ys[0]))
  {
    SameElements(xs, ys, ys[0]);
    var j :| 0 <= j < |xs| && xs[j] == ys[0];
    LexReflexive(key(xs[0]));
  }

  lemma TailOf<T(!new)>(key: T -> string, xs: seq<T>)
    requires xs != [] && SortedBy(key, xs) && InjectiveOn(key, xs)
    ensures SortedBy(key, xs[1..]) && InjectiveOn(key, xs[1..])
    ensures multiset(xs[1..]) == multiset(xs) - multiset{xs[0]}
  {
    assert xs == [xs[0]] + xs[1..];
    forall u | u in xs[1..] ensures u in xs {}
  }

  lemma InjectiveOnSame<T(!new)>(key: T -> string, xs: seq<T>, ys: seq<T>)
    requires multiset(xs) == multiset(ys) && InjectiveOn(key, xs)
    ensures InjectiveOn(key, ys)
  {
    forall u | u in ys ensures u in xs { SameElements(xs, ys, u); }
  }

  ghost predicate SameSorted<T(!new)>(key: T -> string, xs: seq<T>, ys: seq<T>) {
    && multiset(xs) == multiset(ys)
    && SortedBy(key, xs) && SortedBy(key, ys)
    && InjectiveOn(key, xs)
  }

  lemma SameLength<T(!new)>(xs: seq<T>, ys: seq<T>)
    requires multiset(xs) == multiset(ys)
    ensures |xs| == |ys|
  {
    assert |xs| == |multiset(xs)| == |multiset(ys)| == |ys|;
  }

  lemma SameFirst<T(!new)>(key: T -> string, xs: seq<T>, ys: seq<T>)
    requires xs != [] && ys != [] && SameSorted(key, xs, ys)
    ensures xs[0] == ys[0]
  {
    SmallestFirst(key, xs, ys);
    SmallestFirst(key, ys, xs);
    LexAntisymmetric(key(xs[0]), key(ys[0]));
    SameElements(xs, ys, ys[0]);
  }

  lemma SameTails<T(!new)>(key: T -> string, xs: seq<T>, ys: seq<T>)
    requires xs != [] && ys != [] && SameSorted(key, xs, ys) && xs[0] == ys[0]
    ensures SameSorted(key, xs[1..], ys[1..])
  {
    InjectiveOnSame(key, xs, ys);
    TailOf(key, xs);
    TailOf(key, ys);
  }

  /** Two sorted arrangements of the same elements are the same sequence. */
  lemma {:induction false} SortedUnique<T(!new)>(key: T -> string, xs: seq<T>, ys: seq<T>)
    requires SameSorted(key, xs, ys)
    ensures xs == ys
  {
    SameLength(xs, ys);
    if xs != [] {
      SameFirst(key, xs, ys);
      SameTails(key, xs, ys);
      SortedUnique(key, xs[1..], ys[1..]);
      assert xs == [xs[0]] + xs[1..] && ys == [ys[0]] + ys[1..];
    }
  }

  /** Sorting forgets the order of its input. */
  lemma {:induction false} SortForgetsOrder<T(!new)>(key: T -> string, xs: seq<T>, ys: seq<T>)
    requires multiset(xs) == multiset(ys)
    requires InjectiveOn(key, xs)
    ensures Sort(key, xs) == Sort(key, ys)
  {
    SortSorted(key, xs);
    SortSorted(key, ys);
    InjectiveOnSame(key, xs, Sort(key, xs));
    SortedUnique(key, Sort(key, xs), Sort(key, ys));
  }
}
