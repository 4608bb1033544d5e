/** Sequence helpers the cleanup script relies on: the order-preserving
    `Array.prototype.filter`, `Math.min`, and the stride walk
    `for (i = 0; i < n; i += size) … slice(i, Math.min(i + size, n))`
    written as a function that cuts a sequence into batches. */
module Seqs {

  function Min(a: int, b: int): (m: int)
  {
    if a <= b then a else b
  }

  lemma AppendAssoc<T>(a: seq<T>, b: seq<T>, c: seq<T>)
    ensures (a + b) + c == a + (b + c)
  {
  }

  /** Order-preserving filter, as JavaScript's `Array.prototype.filter`. */
  function Filter<T>(p: T -> bool, s: seq<T>): (kept: seq<T>)
  {
    if s == [] then []
    else if p(s[0]) then [s[0]] + Filter(p, s[1..])
    else Filter(p, s[1..])
  }

  /** The filter keeps each passing element as often as it occurs in the
      input, and nothing else. */
  lemma {:induction false} FilterMultiset<T>(p: T -> bool, s: seq<T>)
    ensures |Filter(p, s)| <= |s|
    ensures forall x :: multiset(Filter(p, s))[x] == if p(x) then multiset(s)[x] else 0
  {
    if s != [] {
      FilterMultiset(p, s[1..]);
      assert s == [s[0]] + s[1..];
    }
  }

  /** The filter keeps exactly the elements that pass, each as often as it
      occurs in the input, and nothing else. */
  lemma FilterSpec<T(!new)>(p: T -> bool, s: seq<T>)
    ensures |Filter(p, s)| <= |s|
    ensures forall x :: x in Filter(p, s) <==> x in s && p(x)
    ensures forall x :: multiset(Filter(p, s))[x] == if p(x) then multiset(s)[x] else 0
  {
    FilterMultiset(p, s);
    forall x
      ensures x in Filter(p, s) <==> x in s && p(x)
    {
      assert x in Filter(p, s) <==> x in multiset(Filter(p, s));
    }
  }

  lemma FilterOne<T>(p: T -> bool, x: T)
    ensures Filter(p, [x]) == if p(x) then [x] else []
  {
    assert [x][1..] == [];
  }

  /** Filtering a concatenation filters each part: the survivors keep their order. */
  lemma {:induction false} FilterAppend<T(!new)>(p: T -> bool, a: seq<T>, b: seq<T>)
    ensures Filter(p, a + b) == Filter(p, a) + Filter(p, b)
  {
    if a == [] {
      assert a + b == b;
    } else {
      var head := if p(a[0]) then [a[0]] else [];
      assert (a + b)[0] == a[0];
      assert (a + b)[1..] == a[1..] + b;
      assert Filter(p, a + b) == head + Filter(p, a[1..] + b);
      FilterAppend(p, a[1..], b);
      AppendAssoc(head, Filter(p, a[1..]), Filter(p, b));
    }
  }

  /** The batches a stride-`n` walk over `s` visits: each batch is
      `s[i .. Min(i + n, |s|)]` for `i = 0, n, 2n, …` while `i < |s|`. */
  function Chunks<T>(s: seq<T>, n: nat): (r: seq<seq<T>>)
    requires n > 0
    ensures forall c :: c in r ==> 0 < |c| <= n
    ensures forall t :: 0 <= t < |r| - 1 ==> |r[t]| == n
    decreases |s|
  {
    if s == [] then []
    else
      var k := Min(n, |s|);
      [s[..k]] + Chunks(s[k..], n)
  }

  /** The stride walk from position `i` takes `s[i .. Min(i + n, |s|)]` next. */
  lemma ChunksFrom<T>(s: seq<T>, i: nat, n: nat)
    requires n > 0 && i < |s|
    ensures Chunks(s[i..], n) == [s[i..Min(i + n, |s|)]] + Chunks(s[Min(i + n, |s|)..], n)
  {
    var k := Min(i + n, |s|);
    assert s[i..][..k - i] == s[i..k] && s[i..][k - i..] == s[k..];
  }

  /** A walk over `m` items in strides of `n` visits ceil(m / n) batches. */
  lemma {:induction false} ChunksCount<T>(s: seq<T>, n: nat)
    requires n > 0
    ensures |Chunks(s, n)| == (|s| + n - 1) / n
    decreases |s|
  {
    if s != [] {
      var k := Min(n, |s|);
      ChunksCount(s[k..], n);
      if |s| <= n {
        DivUnique(|s| + n - 1, n, 1, |s| - 1);
      } else {
        DivStep(|s| - 1, n);
      }
    }
  }

  function Flatten<T>(ss: seq<seq<T>>): (joined: seq<T>)
  {
    if ss == [] then [] else ss[0] + Flatten(ss[1..])
  }

  lemma {:induction false} FlattenAppend<T>(a: seq<seq<T>>, b: seq<seq<T>>)
    ensures Flatten(a + b) == Flatten(a) + Flatten(b)
  {
    if a == [] {
      assert a + b == b;
    } else {
      assert (a + b)[0] == a[0] && (a + b)[1..] == a[1..] + b;
      FlattenAppend(a[1..], b);
      AppendAssoc(a[0], Flatten(a[1..]), Flatten(b));
    }
  }

  /** Joining the batches in order gives back the walked sequence exactly. */
  lemma {:induction false} FlattenChunks<T>(s: seq<T>, n: nat)
    requires n > 0
    ensures Flatten(Chunks(s, n)) == s
    decreases |s|
  {
    if s != [] {
      var k := Min(n, |s|);
      var rest := Chunks(s[k..], n);
      assert ([s[..k]] + rest)[0] == s[..k] && ([s[..k]] + rest)[1..] == rest;
      assert Flatten(Chunks(s, n)) == s[..k] + Flatten(rest);
      FlattenChunks(s[k..], n);
      assert s == s[..k] + s[k..];
    }
  }

  /** The last batch holds the remainder, or a full `n` when `n` divides `|s|`. */
  lemma {:induction false} LastChunk<T>(s: seq<T>, n: nat)
    requires n > 0 && s != []
    ensures var r := Chunks(s, n);
      |r[|r| - 1]| == if |s| % n == 0 then n else |s| % n
    decreases |s|
  {
    if |s| > n {
      var r, rest := Chunks(s, n), Chunks(s[n..], n);
      assert r == [s[..n]] + rest && rest != [];
      assert r[|r| - 1] == rest[|rest| - 1];
      LastChunk(s[n..], n);
      DivStep(|s| - n, n);
    } else if |s| < n {
      DivUnique(|s|, n, 0, |s|);
    } else {
      DivUnique(n, n, 1, 0);
    }
  }

  lemma MulAtLeast(k: int, n: int)
    requires k >= 1 && n > 0
    ensures k * n >= n
  {
  }

  /** Euclidean division is determined by quotient and remainder. */
  lemma DivUnique(y: int, n: int, a: int, b: int)
    requires n > 0 && 0 <= b < n && y == a * n + b
    ensures y / n == a && y % n == b
  {
    var q, r := y / n, y % n;
    assert y == q * n + r;
    assert q * n - a * n == b - r;
    assert (q - a) * n == q * n - a * n;
    if q > a {
      MulAtLeast(q - a, n);
    } else if q < a {
      assert (a - q) * n == a * n - q * n;
      MulAtLeast(a - q, n);
    }
  }

  lemma DivStep(x: nat, n: nat)
    requires n > 0
    ensures (x + n) / n == x / n + 1
    ensures (x + n) % n == x % n
  {
    assert x == (x / n) * n + x % n;
    assert x + n == (x / n + 1) * n + x % n;
    DivUnique(x + n, n, x / n + 1, x % n);
  }
}
