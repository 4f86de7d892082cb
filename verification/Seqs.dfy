/** Taking an element out of a sequence, sequences without repetition, and sequences of one repeated element. */
module Seqs {
  function Without<T(==)>(s: seq<T>, x: T): (r: seq<T>)
    ensures |r| <= |s|
  {
    if s == [] then []
    else
      var rest := Without(s[..|s| - 1], x);
      if s[|s| - 1] == x then rest else rest + [s[|s| - 1]]
  }

  predicate Distinct<T(==)>(s: seq<T>) {
    forall i, j | 0 <= i < j < |s| :: s[i] != s[j]
  }

  lemma DistinctGrows<T>(s: seq<T>, x: T)
    requires Distinct(s) && x !in s
    ensures Distinct(s + [x])
  {
  }

  lemma {:induction false} WithoutHas<T>(s: seq<T>, x: T, y: T)
    ensures y in Without(s, x) <==> y in s && y != x
  {
    if s != [] {
      WithoutHas(s[..|s| - 1], x, y);
      assert s == s[..|s| - 1] + [s[|s| - 1]];
    }
  }

  lemma {:induction false} WithoutIsDistinct<T>(s: seq<T>, x: T)
    requires Distinct(s)
    ensures Distinct(Without(s, x))
  {
    if s != [] {
      var last := s[|s| - 1];
      WithoutIsDistinct(s[..|s| - 1], x);
      WithoutHas(s[..|s| - 1], x, last);
      assert last !in s[..|s| - 1];
    }
  }

  lemma {:induction false} WithoutAbsent<T>(s: seq<T>, x: T)
    requires x !in s
    ensures Without(s, x) == s
  {
    if s != [] {
      assert s[|s| - 1] in s;
      assert forall y :: y in s[..|s| - 1] ==> y in s;
      WithoutAbsent(s[..|s| - 1], x);
    }
  }

  lemma WithoutAppended<T>(s: seq<T>, y: T, x: T)
    ensures Without(s + [y], x) == if y == x then Without(s, x) else Without(s, x) + [y]
  {
    assert (s + [y])[..|s|] == s;
  }

  lemma WithoutNext<T>(s: seq<T>, i: nat, x: T)
    requires i < |s|
    ensures Without(s[..i + 1], x) == if s[i] == x then Without(s[..i], x) else Without(s[..i], x) + [s[i]]
  {
    WithoutAppended(s[..i], s[i], x);
    assert s[..i] + [s[i]] == s[..i + 1];
  }

  lemma {:induction false} WithoutFirst<T>(e: T, s: seq<T>, x: T)
    ensures Without([e] + s, x) == if e == x then Without(s, x) else [e] + Without(s, x)
  {
    if s == [] {
      WithoutAppended([], e, x);
      assert [] + [e] == [e] + s;
    } else {
      var most, last := s[..|s| - 1], s[|s| - 1];
      WithoutFirst(e, most, x);
      WithoutAppended([e] + most, last, x);
      assert [e] + most + [last] == [e] + s;
    }
  }

  /** The elements that stay keep their order: what was before the one taken out, then what was behind it. */
  lemma {:induction false} WithoutCloses<T>(front: seq<T>, x: T, back: seq<T>)
    requires x !in front && x !in back
    ensures Without(front + [x] + back, x) == front + back
  {
    if back == [] {
      WithoutAbsent(front, x);
      WithoutAppended(front, x, x);
      assert front + [x] + back == front + [x] && front + back == front;
    } else {
      var most, last := back[..|back| - 1], back[|back| - 1];
      assert last in back && forall y :: y in most ==> y in back;
      WithoutCloses(front, x, most);
      WithoutAppended(front + [x] + most, last, x);
      assert front + [x] + most + [last] == front + [x] + back && front + most + [last] == front + back;
    }
  }

  // ---------- doing the same again ----------

  function Repeat<T>(a: T, n: nat): seq<T> {
    if n == 0 then [] else Repeat(a, n - 1) + [a]
  }

  lemma {:induction false} RepeatFront<T>(a: T, n: nat)
    ensures [a] + Repeat(a, n) == Repeat(a, n + 1)
  {
    if n > 0 {
      RepeatFront(a, n - 1);
      assert [a] + (Repeat(a, n - 1) + [a]) == [a] + Repeat(a, n - 1) + [a];
    }
  }

  /** Doing a once and then n times more. */
  lemma OnceMore<T>(s: seq<T>, a: T, n: nat)
    ensures s + [a] + Repeat(a, n) == s + Repeat(a, n + 1)
  {
    RepeatFront(a, n);
    assert s + [a] + Repeat(a, n) == s + ([a] + Repeat(a, n));
  }

  lemma NoMore<T>(s: seq<T>, a: T)
    ensures s + Repeat(a, 0) == s
  {
  }

  lemma Thrice<T>(s: seq<T>, a: T)
    ensures s + [a] + [a] + [a] == s + Repeat(a, 3)
  {
    assert Repeat(a, 3) == Repeat(a, 2) + [a] == Repeat(a, 1) + [a] + [a] == Repeat(a, 0) + [a] + [a] + [a];
  }

  lemma Regrouped<T>(a: seq<T>, b: seq<T>, c: seq<T>)
    ensures a + b + c == a + (b + c)
  {
  }
}
