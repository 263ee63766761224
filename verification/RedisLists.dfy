/** Redis list commands on sequences.  Index 0 is the LEFT end of the list. */
module RedisLists {

  datatype Option<+T> = None | Some(value: T)

  function Max(a: int, b: int): int { if a < b then b else a }

  function One(b: bool): nat { if b then 1 else 0 }

  /** How many copies of `x` the list holds. */
  function Count<T(==)>(s: seq<T>, x: T): nat { multiset(s)[x] }

  /** LPUSH */
  function PushLeft<T>(s: seq<T>, x: T): seq<T> { [x] + s }

  lemma Reassociate<T>(xs: seq<T>, ys: seq<T>, zs: seq<T>)
    ensures xs + (ys + zs) == (xs + ys) + zs
  {
  }

  /** LREM key 1 x: drop the leftmost copy of `x`, if there is one. */
  function RemoveFirst<T(==)>(s: seq<T>, x: T): seq<T> {
    if s == [] then [] else if s[0] == x then s[1..] else [s[0]] + RemoveFirst(s[1..], x)
  }

  /** LREM key 0 x: drop every copy of `x`. */
  function RemoveAll<T(==)>(s: seq<T>, x: T): seq<T> {
    if s == [] then [] else if s[0] == x then RemoveAll(s[1..], x) else [s[0]] + RemoveAll(s[1..], x)
  }

  lemma {:induction false} RemoveFirstCount<T>(s: seq<T>, x: T, y: T)
    ensures Count(RemoveFirst(s, x), y) == if x == y && x in s then Count(s, y) - 1 else Count(s, y)
  {
    if s != [] {
      assert s == [s[0]] + s[1..];
      RemoveFirstCount(s[1..], x, y);
    }
  }

  lemma {:induction false} RemoveAllCount<T>(s: seq<T>, x: T, y: T)
    ensures Count(RemoveAll(s, x), y) == if x == y then 0 else Count(s, y)
  {
    if s != [] {
      assert s == [s[0]] + s[1..];
      RemoveAllCount(s[1..], x, y);
    }
  }

  /** LREM key 0 keeps the order of what stays: it works on any two parts of a list separately. */
  lemma {:induction false} RemoveAllInParts<T>(s: seq<T>, t: seq<T>, x: T)
    ensures RemoveAll(s + t, x) == RemoveAll(s, x) + RemoveAll(t, x)
    ensures RemoveAll([x], x) == []
    ensures forall y :: y != x ==> RemoveAll([y], x) == [y]
  {
    if s == [] {
      assert s + t == t;
    } else {
      assert (s + t)[1..] == s[1..] + t;
      RemoveAllInParts(s[1..], t, x);
    }
  }

  /** LREM key 1 leaves a list without the element alone. */
  lemma {:induction false} RemoveFirstOfNone<T>(s: seq<T>, x: T)
    requires x !in s
    ensures RemoveFirst(s, x) == s
  {
    if s != [] {
      assert s[0] in s && forall y :: y in s[1..] ==> y in s;
      RemoveFirstOfNone(s[1..], x);
      assert s == [s[0]] + s[1..];
    }
  }

  lemma PushLeftCount<T>(s: seq<T>, x: T, y: T)
    ensures Count(PushLeft(s, x), y) == if x == y then Count(s, y) + 1 else Count(s, y)
  {
  }

  lemma DropLastCount<T>(s: seq<T>, y: T)
    requires s != []
    ensures Count(s[..|s| - 1], y) + (if s[|s| - 1] == y then 1 else 0) == Count(s, y)
  {
    assert s == s[..|s| - 1] + [s[|s| - 1]];
  }

  function Reverse<T>(s: seq<T>): seq<T> {
    if s == [] then [] else Reverse(s[1..]) + [s[0]]
  }

  /** Push the elements of `xs` one after the other. */
  function PushAll<T>(xs: seq<T>, base: seq<T>): seq<T> {
    if xs == [] then base else PushAll(xs[1..], PushLeft(base, xs[0]))
  }

  lemma PushAllCons<T>(x: T, xs: seq<T>, base: seq<T>)
    ensures PushAll([x] + xs, base) == PushAll(xs, PushLeft(base, x))
  {
    assert ([x] + xs)[1..] == xs;
  }

  /** Pushing on the left reverses. */
  lemma {:induction false} PushAllReverses<T>(xs: seq<T>, base: seq<T>)
    ensures PushAll(xs, base) == Reverse(xs) + base
  {
    if xs != [] {
      PushAllReverses(xs[1..], PushLeft(base, xs[0]));
      assert Reverse(xs[1..]) + PushLeft(base, xs[0]) == Reverse(xs) + base;
    }
  }

  ghost predicate Distinct<T(!new)>(s: seq<T>) {
    forall i, j :: 0 <= i < j < |s| ==> s[i] != s[j]
  }

  lemma CountIn<T>(s: seq<T>, x: T)
    ensures Count(s, x) > 0 <==> x in s
  {
  }

  /** LREM 1 leaves an untouched prefix alone when the prefix has no copy. */
  lemma {:induction false} RemoveFirstAfterPrefix<T>(prefix: seq<T>, x: T, rest: seq<T>)
    requires x !in prefix
    ensures RemoveFirst(prefix + [x] + rest, x) == prefix + rest
  {
    var s := prefix + [x] + rest;
    if prefix == [] {
      assert s[0] == x && s[1..] == rest;
    } else {
      assert prefix[0] in prefix && s[0] == prefix[0];
      assert s[1..] == prefix[1..] + [x] + rest;
      RemoveFirstAfterPrefix(prefix[1..], x, rest);
      assert prefix + rest == [prefix[0]] + (prefix[1..] + rest);
    }
  }
}
