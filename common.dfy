/** Small datatypes and list helpers shared by the whole model. */
module Common {

  datatype Option<+T> = None | Some(value: T) {
    /** JavaScript's `x ?? d`: the value when defined, otherwise the default. */
    function GetOr(default: T): T {
      match this
      case Some(v) => v
      case None => default
    }
  }

  /** An operation that either yields a value or fails, standing for a thrown error. */
  datatype Result<+T> = Ok(value: T) | Err(error: string)

  /** `xs.filter((y) => y !== x)`: every occurrence of `x` removed, the rest in order. */
  function Without<T(==,!new)>(xs: seq<T>, x: T): (r: seq<T>)
    ensures x !in r
    ensures forall y :: y in r <==> y in xs && y != x
    ensures |r| <= |xs|
    ensures IsSubsequence(r, xs)
    ensures forall y :: y != x ==> multiset(r)[y] == multiset(xs)[y]
  {
    if xs == [] then []
    else
      assert xs == [xs[0]] + xs[1..];
      if xs[0] == x then Without(xs[1..], x)
      else [xs[0]] + Without(xs[1..], x)
  }

  /**
   * The add/remove toggle on a string list used by the filter checkboxes and
   * the listing form: drop every occurrence when present, else append at the end.
   */
  function Toggle<T(==,!new)>(xs: seq<T>, x: T): (r: seq<T>)
    ensures x in r <==> x !in xs
    ensures forall y :: y != x ==> (y in r <==> y in xs)
  {
    if x in xs then Without(xs, x) else xs + [x]
  }

  lemma {:induction false} WithoutAbsent<T(!new)>(xs: seq<T>, x: T)
    requires x !in xs
    ensures Without(xs, x) == xs
  {
    if xs != [] {
      WithoutAbsent(xs[1..], x);
    }
  }

  /** Toggling twice restores membership; toggling an absent value twice restores the list itself. */
  lemma ToggleTwice<T(!new)>(xs: seq<T>, x: T)
    ensures forall y :: y in Toggle(Toggle(xs, x), x) <==> y in xs
    ensures x !in xs ==> Toggle(Toggle(xs, x), x) == xs
  {
    if x !in xs {
      assert x in xs + [x];
      assert Without(xs + [x], x) == Without(xs, x) by { WithoutAppend(xs, x); }
      WithoutAbsent(xs, x);
    }
  }

  lemma {:induction false} WithoutAppend<T(!new)>(xs: seq<T>, x: T)
    ensures Without(xs + [x], x) == Without(xs, x)
  {
    if xs == [] {
      assert [x][1..] == [];
    } else {
      assert (xs + [x])[1..] == xs[1..] + [x];
      WithoutAppend(xs[1..], x);
    }
  }

  /** `xs` keeps some of the elements of `ys`, in their original order (greedy matching). */
  predicate IsSubsequence<T(==)>(xs: seq<T>, ys: seq<T>)
    decreases |ys|
  {
    if xs == [] then true
    else if ys == [] then false
    else if xs[0] == ys[0] then IsSubsequence(xs[1..], ys[1..])
    else IsSubsequence(xs, ys[1..])
  }

  /** `xs.filter(p)`. */
  function Filter<T(!new)>(p: T -> bool, xs: seq<T>): (r: seq<T>)
    ensures forall y :: y in r <==> y in xs && p(y)
    ensures |r| <= |xs|
  {
    if xs == [] then []
    else if p(xs[0]) then [xs[0]] + Filter(p, xs[1..])
    else Filter(p, xs[1..])
  }

  /** Filtering one more element at the end: it is kept exactly when it passes. */
  lemma {:induction false} FilterSnoc<T(!new)>(p: T -> bool, xs: seq<T>, x: T)
    ensures Filter(p, xs + [x]) == Filter(p, xs) + (if p(x) then [x] else [])
  {
    if xs == [] {
      assert xs + [x] == [x] && [x][1..] == [];
    } else {
      assert (xs + [x])[1..] == xs[1..] + [x];
      FilterSnoc(p, xs[1..], x);
    }
  }

  /** Filtering a prefix one element longer adds that element exactly when it passes. */
  lemma FilterPrefixStep<T(!new)>(p: T -> bool, xs: seq<T>, i: nat)
    requires i < |xs|
    ensures Filter(p, xs[..i + 1]) == Filter(p, xs[..i]) + (if p(xs[i]) then [xs[i]] else [])
  {
    FilterSnoc(p, xs[..i], xs[i]);
    assert xs[..i + 1] == xs[..i] + [xs[i]];
  }

  /** A filter keeps the surviving elements in their original relative order. */
  lemma {:induction false} FilterIsSubsequence<T(!new)>(p: T -> bool, xs: seq<T>)
    ensures IsSubsequence(Filter(p, xs), xs)
  {
    if xs != [] {
      FilterIsSubsequence(p, xs[1..]);
      if p(xs[0]) {
        assert Filter(p, xs)[1..] == Filter(p, xs[1..]);
      } else if Filter(p, xs) != [] {
        SubsequenceHeadSkip(Filter(p, xs), xs);
      }
    }
  }

  lemma {:induction false} SubsequenceReflexive<T>(xs: seq<T>)
    ensures IsSubsequence(xs, xs)
  {
    if xs != [] {
      SubsequenceReflexive(xs[1..]);
    }
  }

  /** A subsequence of the tail is a subsequence of the whole. */
  lemma {:induction false} SubsequenceHeadSkip<T>(xs: seq<T>, ys: seq<T>)
    requires ys != [] && IsSubsequence(xs, ys[1..])
    ensures IsSubsequence(xs, ys)
    decreases |ys|, 0
  {
    if xs != [] && xs[0] == ys[0] {
      if |ys| > 1 {
        SubsequenceTail(xs, ys[1..]);
      }
    }
  }

  /** Dropping the head of a subsequence keeps it a subsequence. */
  lemma {:induction false} SubsequenceTail<T>(xs: seq<T>, ys: seq<T>)
    requires xs != [] && IsSubsequence(xs, ys)
    ensures IsSubsequence(xs[1..], ys)
    decreases |ys|, 1
  {
    if ys != [] && xs[0] != ys[0] {
      SubsequenceTail(xs, ys[1..]);
      SubsequenceHeadSkip(xs[1..], ys);
    } else if ys != [] && xs[1..] != [] {
      SubsequenceHeadSkip(xs[1..], ys);
    }
  }

  /** `rows` ordered by `key`, largest first. */
  predicate Descending<T>(key: T -> int, rows: seq<T>) {
    forall i, j :: 0 <= i < j < |rows| ==> key(rows[i]) >= key(rows[j])
  }

  /** A row whose key is at least every key of a descending list can go in front of it. */
  lemma ConsDescending<T>(key: T -> int, h: T, rest: seq<T>)
    requires Descending(key, rest)
    requires forall k :: 0 <= k < |rest| ==> key(h) >= key(rest[k])
    ensures Descending(key, [h] + rest)
  {
    forall i, j | 0 <= i < j < |[h] + rest|
      ensures key(([h] + rest)[i]) >= key(([h] + rest)[j])
    {
      if i > 0 {
        assert ([h] + rest)[i] == rest[i - 1];
      }
      assert ([h] + rest)[j] == rest[j - 1];
    }
  }

  /** The head of a descending list has a key at least that of `x` and of the rest of the rows. */
  lemma HeadDescending<T>(key: T -> int, rows: seq<T>, x: T, rest: seq<T>)
    requires Descending(key, rows) && rows != [] && key(x) < key(rows[0])
    requires multiset(rest) == multiset(rows[1..]) + multiset{x}
    ensures forall k :: 0 <= k < |rest| ==> key(rows[0]) >= key(rest[k])
  {
    forall k | 0 <= k < |rest|
      ensures key(rows[0]) >= key(rest[k])
    {
      assert rest[k] in multiset(rest);
      if rest[k] != x {
        assert rest[k] in multiset(rows[1..]);
        var j :| 0 <= j < |rows[1..]| && rows[1..][j] == rest[k];
        assert rows[j + 1] == rest[k];
      }
    }
  }

  /** Places `x` ahead of the first row whose key is not larger. */
  function InsertDescending<T>(key: T -> int, x: T, rows: seq<T>): (r: seq<T>)
    requires Descending(key, rows)
    ensures Descending(key, r)
    ensures multiset(r) == multiset(rows) + multiset{x}
  {
    if rows == [] || key(x) >= key(rows[0]) then
      ConsDescending(key, x, rows);
      [x] + rows
    else
      assert Descending(key, rows[1..]);
      var rest := InsertDescending(key, x, rows[1..]);
      assert rows == [rows[0]] + rows[1..];
      HeadDescending(key, rows, x, rest);
      ConsDescending(key, rows[0], rest);
      [rows[0]] + rest
  }

  /** The rows ordered by `key`, largest first: the same rows, each as often as before. */
  function SortDescending<T>(key: T -> int, rows: seq<T>): (r: seq<T>)
    ensures Descending(key, r)
    ensures multiset(r) == multiset(rows)
  {
    if rows == [] then []
    else
      assert rows == [rows[0]] + rows[1..];
      InsertDescending(key, rows[0], SortDescending(key, rows[1..]))
  }

  /** The elements of a set in a list ordered by `key`, largest first, each once. */
  method SortSet<T>(key: T -> int, s: set<T>) returns (out: seq<T>)
    ensures Descending(key, out)
    ensures multiset(out) == multiset(s)
  {
    var pending := s;
    out := [];
    while pending != {}
      invariant pending <= s
      invariant Descending(key, out)
      invariant multiset(out) == multiset(s - pending)
      decreases pending
    {
      var a :| a in pending;
      assert s - (pending - {a}) == (s - pending) + {a};
      assert a !in s - pending;
      out := InsertDescending(key, a, out);
      pending := pending - {a};
    }
    assert s - pending == s;
  }

  /** An element at two positions occurs at least twice. */
  lemma TwiceInMultiset<T>(xs: seq<T>, i: nat, j: nat)
    requires i < j < |xs|
    ensures xs[i] == xs[j] ==> multiset(xs)[xs[i]] >= 2
  {
    assert xs == xs[..j] + [xs[j]] + xs[j + 1..];
    assert xs[..j][i] == xs[i];
  }

  /** A list holding each element of a set once: the same elements, no repeats. */
  lemma SortedSetDistinct<T>(xs: seq<T>, s: set<T>)
    requires multiset(xs) == multiset(s)
    ensures forall a :: a in xs <==> a in s
    ensures forall i, j :: 0 <= i < j < |xs| ==> xs[i] != xs[j]
  {
    forall a
      ensures a in xs <==> a in s
    {
      assert a in xs <==> a in multiset(xs);
    }
    forall i, j | 0 <= i < j < |xs|
      ensures xs[i] != xs[j]
    {
      TwiceInMultiset(xs, i, j);
      assert multiset(s)[xs[i]] <= 1;
    }
  }

  function Min(a: int, b: int): int { if a <= b then a else b }
  function Max(a: int, b: int): int { if a >= b then a else b }
}
