/**
 * The meaning of the SQL clauses the score store uses, over in-memory tables: `WHERE` keeps
 * the rows a predicate accepts, in table order; `ORDER BY key DESC` is a stable insertion
 * sort on an integer key; `LIMIT n OFFSET k` is a slice.
 */
module Queries {
  import opened Wrappers

  /** The rows of `xs` that `p` accepts, in their order. */
  function Select<T>(xs: seq<T>, p: T -> bool): (r: seq<T>)
    ensures |r| <= |xs|
  {
    if xs == [] then []
    else
      var init := xs[..|xs| - 1];
      var x := xs[|xs| - 1];
      assert xs == init + [x];
      Select(init, p) + (if p(x) then [x] else [])
  }

  /** A row is selected exactly when it is a row that `p` accepts. */
  lemma {:induction false} SelectMembers<T>(xs: seq<T>, p: T -> bool, x: T)
    ensures x in Select(xs, p) <==> x in xs && p(x)
    decreases |xs|
  {
    if xs != [] {
      var init := xs[..|xs| - 1];
      assert xs == init + [xs[|xs| - 1]];
      SelectMembers(init, p, x);
    }
  }

  lemma {:induction false} SelectConcat<T>(a: seq<T>, b: seq<T>, p: T -> bool)
    ensures Select(a + b, p) == Select(a, p) + Select(b, p)
    decreases |b|
  {
    if b == [] {
      assert a + b == a;
    } else {
      var binit := b[..|b| - 1];
      assert (a + b)[..|a + b| - 1] == a + binit;
      assert (a + b)[|a + b| - 1] == b[|b| - 1];
      SelectConcat(a, binit, p);
    }
  }

  lemma {:induction false} SelectAll<T>(xs: seq<T>, p: T -> bool)
    requires forall k :: 0 <= k < |xs| ==> p(xs[k])
    ensures Select(xs, p) == xs
    decreases |xs|
  {
    if xs != [] {
      var init := xs[..|xs| - 1];
      assert xs == init + [xs[|xs| - 1]];
      SelectAll(init, p);
    }
  }

  lemma {:induction false} SelectNone<T>(xs: seq<T>, p: T -> bool)
    requires forall k :: 0 <= k < |xs| ==> !p(xs[k])
    ensures Select(xs, p) == []
    decreases |xs|
  {
    if xs != [] {
      SelectNone(xs[..|xs| - 1], p);
    }
  }

  lemma SelectAppend<T>(xs: seq<T>, x: T, p: T -> bool)
    ensures Select(xs + [x], p) == Select(xs, p) + (if p(x) then [x] else [])
  {
    assert (xs + [x])[..|xs|] == xs;
  }

  /** Inclusion and exclusion: the rows either predicate accepts plus those both accept are
      as many as those each accepts. */
  lemma {:induction false} SelectCounts<T>(xs: seq<T>, p: T -> bool, q: T -> bool, either: T -> bool, both: T -> bool)
    requires forall x :: either(x) == (p(x) || q(x))
    requires forall x :: both(x) == (p(x) && q(x))
    ensures |Select(xs, either)| + |Select(xs, both)| == |Select(xs, p)| + |Select(xs, q)|
    decreases |xs|
  {
    if xs != [] {
      var init := xs[..|xs| - 1];
      assert xs == init + [xs[|xs| - 1]];
      SelectCounts(init, p, q, either, both);
    }
  }

  /** A weaker predicate selects at least as many rows. */
  lemma {:induction false} SelectMonotone<T>(xs: seq<T>, p: T -> bool, q: T -> bool)
    requires forall x :: p(x) ==> q(x)
    ensures |Select(xs, p)| <= |Select(xs, q)|
    decreases |xs|
  {
    if xs != [] {
      var init := xs[..|xs| - 1];
      assert xs == init + [xs[|xs| - 1]];
      SelectMonotone(init, p, q);
    }
  }

  /** A predicate that rejects exactly the row at `i` deletes that row. */
  lemma {:induction false} SelectDropsOne<T>(xs: seq<T>, i: int, p: T -> bool)
    requires 0 <= i < |xs| && !p(xs[i])
    requires forall k :: 0 <= k < |xs| && k != i ==> p(xs[k])
    ensures Select(xs, p) == xs[..i] + xs[i + 1..]
    decreases |xs|
  {
    var init, last := xs[..|xs| - 1], xs[|xs| - 1];
    assert xs == init + [last];
    if i == |xs| - 1 {
      SelectAll(init, p);
      assert xs[i + 1..] == [];
    } else {
      SelectDropsOne(init, i, p);
      assert xs[..i] == init[..i];
      assert xs[i + 1..] == init[i + 1..] + [last];
    }
  }

  /** `LIMIT limit OFFSET offset`; a negative limit or offset is an SQL error. */
  function Paginate<T>(xs: seq<T>, limit: int, offset: int): (r: Result<seq<T>, string>)
    ensures r.Err? <==> limit < 0 || offset < 0
    ensures r.Ok? ==> |r.value| <= limit
    ensures r.Ok? ==> |r.value| == if offset >= |xs| then 0 else if |xs| - offset < limit then |xs| - offset else limit
    ensures r.Ok? ==> forall k :: 0 <= k < |r.value| ==> r.value[k] == xs[offset + k]
  {
    if limit < 0 || offset < 0 then Err("ER_PARSE_ERROR")
    else if offset >= |xs| then Ok([])
    else if |xs| - offset < limit then Ok(xs[offset..])
    else Ok(xs[offset..offset + limit])
  }

  /** A page of a sorted list is sorted. */
  lemma PaginateSorted<T>(xs: seq<T>, limit: int, offset: int, key: T -> int)
    requires SortedDesc(xs, key)
    ensures Paginate(xs, limit, offset).Ok? ==> SortedDesc(Paginate(xs, limit, offset).value, key)
  {
    var r := Paginate(xs, limit, offset);
    if r.Ok? {
      forall i, j | 0 <= i < j < |r.value| ensures key(r.value[i]) >= key(r.value[j]) {
        assert r.value[i] == xs[offset + i] && r.value[j] == xs[offset + j];
      }
    }
  }

  /** With pages of `limit` rows, row `i` is row `i % limit` of page `i / limit + 1`. */
  lemma PagesCover<T>(xs: seq<T>, limit: int, i: int)
    requires limit > 0 && 0 <= i < |xs|
    ensures var r := Paginate(xs, limit, (i / limit + 1 - 1) * limit);
            r.Ok? && i % limit < |r.value| && r.value[i % limit] == xs[i]
  {
    var offset := (i / limit) * limit;
    assert i == offset + i % limit;
    assert (i / limit + 1 - 1) * limit == offset;
  }

  predicate SortedDesc<T>(xs: seq<T>, key: T -> int) {
    forall i, j :: 0 <= i < j < |xs| ==> key(xs[i]) >= key(xs[j])
  }

  /** Puts `x` after every element whose key is at least its own. */
  function InsertDesc<T>(x: T, xs: seq<T>, key: T -> int): (r: seq<T>)
    requires SortedDesc(xs, key)
    ensures SortedDesc(r, key)
    ensures multiset(r) == multiset(xs) + multiset{x}
    ensures |r| == |xs| + 1
  {
    if xs == [] then [x]
    else if key(x) > key(xs[0]) then [x] + xs
    else
      var rest := InsertDesc(x, xs[1..], key);
      InsertBehindHead(x, xs, key, rest);
      [xs[0]] + rest
  }

  /** Putting the head back in front of the head-less list with `x` inserted keeps it
      sorted, because the head's key is at least every other key and at least `x`'s. */
  lemma InsertBehindHead<T>(x: T, xs: seq<T>, key: T -> int, rest: seq<T>)
    requires SortedDesc(xs, key) && xs != [] && key(x) <= key(xs[0])
    requires SortedDesc(rest, key) && multiset(rest) == multiset(xs[1..]) + multiset{x}
    ensures SortedDesc([xs[0]] + rest, key)
    ensures multiset([xs[0]] + rest) == multiset(xs) + multiset{x}
  {
    assert xs == [xs[0]] + xs[1..];
    forall k | 0 <= k < |rest| ensures key(xs[0]) >= key(rest[k]) {
      assert rest[k] in multiset(rest);
      if rest[k] != x {
        assert rest[k] in multiset(xs[1..]);
        var m :| 0 <= m < |xs[1..]| && xs[1..][m] == rest[k];
        assert xs[m + 1] == rest[k];
      }
    }
    var r := [xs[0]] + rest;
    forall i, j | 0 <= i < j < |r| ensures key(r[i]) >= key(r[j]) {
      assert r[j] == rest[j - 1];
      if i > 0 {
        assert r[i] == rest[i - 1];
      }
    }
  }

  /** Sorts by descending key; elements are inserted from the last to the first, which
      keeps equal keys in their input order. */
  function SortDesc<T>(xs: seq<T>, key: T -> int): (r: seq<T>)
    ensures SortedDesc(r, key)
    ensures multiset(r) == multiset(xs)
    ensures |r| == |xs|
  {
    if xs == [] then []
    else
      var init := xs[..|xs| - 1];
      assert xs == init + [xs[|xs| - 1]];
      InsertDesc(xs[|xs| - 1], SortDesc(init, key), key)
  }

  /** Taking the same element out of two permutations of each other leaves permutations. */
  lemma MultisetWithout<T>(a: seq<T>, b: seq<T>, j: int)
    requires multiset(a) == multiset(b) && |a| > 0 && 0 <= j < |b| && b[j] == a[0]
    ensures multiset(a[1..]) == multiset(b[..j] + b[j + 1..])
  {
    assert a == [a[0]] + a[1..];
    assert multiset(a) == multiset{a[0]} + multiset(a[1..]);
    var x, y := b[..j], b[j + 1..];
    assert b == x + [b[j]] + y;
    assert multiset(b) == multiset(x) + multiset{b[j]} + multiset(y);
    assert multiset(x + y) == multiset(x) + multiset(y);
    assert multiset(a[1..]) == multiset(a) - multiset{a[0]};
    assert multiset(x + y) == multiset(b) - multiset{b[j]};
  }

  /** `WHERE p ORDER BY key DESC`. */
  function SelectSorted<T>(xs: seq<T>, p: T -> bool, key: T -> int): (r: seq<T>)
    ensures SortedDesc(r, key)
    ensures multiset(r) == multiset(Select(xs, p))
    ensures |r| == |Select(xs, p)|
    ensures forall k :: 0 <= k < |r| ==> p(r[k]) && r[k] in xs
  {
    var m := Select(xs, p);
    var r := SortDesc(m, key);
    assert forall k :: 0 <= k < |r| ==> p(r[k]) && r[k] in xs by {
      forall k | 0 <= k < |r| ensures p(r[k]) && r[k] in xs {
        assert r[k] in multiset(m);
        SelectMembers(xs, p, r[k]);
      }
    }
    r
  }

  lemma SortedMembers<T>(xs: seq<T>, key: T -> int, x: T)
    ensures x in SortDesc(xs, key) <==> x in xs
  {
    var r := SortDesc(xs, key);
    assert x in r <==> x in multiset(r);
    assert x in xs <==> x in multiset(xs);
  }

  // ---------------------------------------------------------------------------
  // Counting by key, as a JavaScript object used as a counter does

  predicate NoDuplicates<T(==)>(xs: seq<T>) {
    forall i, j :: 0 <= i < j < |xs| ==> xs[i] != xs[j]
  }

  /** Each distinct key once, in order of first appearance: the key order of an object that
      was filled by scanning `keys`. */
  function Firsts<T(==)>(keys: seq<T>): (r: seq<T>)
    ensures NoDuplicates(r)
    ensures forall k :: 0 <= k < |r| ==> r[k] in keys
    ensures forall k :: 0 <= k < |keys| ==> keys[k] in r
  {
    if keys == [] then []
    else
      var init := Firsts(keys[..|keys| - 1]);
      var x := keys[|keys| - 1];
      assert keys == keys[..|keys| - 1] + [x];
      if x in init then init else init + [x]
  }

  /** The position of the first occurrence of `x`. */
  function FirstIndex<T(==)>(keys: seq<T>, x: T): (r: nat)
    requires x in keys
    ensures r < |keys| && keys[r] == x && x !in keys[..r]
  {
    if keys[0] == x then 0
    else
      var r := 1 + FirstIndex(keys[1..], x);
      assert keys[..r] == [keys[0]] + keys[1..][..r - 1];
      r
  }

  lemma {:induction false} FirstIndexPrefix<T>(a: seq<T>, b: seq<T>, y: T)
    requires y in a
    ensures FirstIndex(a + b, y) == FirstIndex(a, y)
    decreases |a|
  {
    if a[0] != y {
      assert (a + b)[1..] == a[1..] + b;
      FirstIndexPrefix(a[1..], b, y);
    }
  }

  /** `Firsts` lists the keys in the order of their first appearance. */
  lemma {:induction false} FirstsOrder<T>(keys: seq<T>, i: nat, j: nat)
    requires i < j < |Firsts(keys)|
    ensures FirstIndex(keys, Firsts(keys)[i]) < FirstIndex(keys, Firsts(keys)[j])
    decreases |keys|
  {
    var init := keys[..|keys| - 1];
    var x := keys[|keys| - 1];
    assert keys == init + [x];
    var fi := Firsts(init);
    var r := Firsts(keys);
    if x in fi {
      assert r == fi;
      FirstsOrder(init, i, j);
      FirstIndexPrefix(init, [x], fi[i]);
      FirstIndexPrefix(init, [x], fi[j]);
    } else if j < |fi| {
      assert r[..|fi|] == fi;
      FirstsOrder(init, i, j);
      FirstIndexPrefix(init, [x], fi[i]);
      FirstIndexPrefix(init, [x], fi[j]);
    } else {
      assert r == fi + [x] && r[j] == x && r[i] == fi[i];
      FirstIndexPrefix(init, [x], fi[i]);
    }
  }

  /** The counts `m` gives the keys of `l`, summed. */
  function SumCounts<T>(l: seq<T>, m: multiset<T>): nat {
    if l == [] then 0 else SumCounts(l[..|l| - 1], m) + m[l[|l| - 1]]
  }

  lemma {:induction false} SumCountsEmpty<T>(l: seq<T>)
    ensures SumCounts(l, multiset{}) == 0
  {
    if l != [] {
      SumCountsEmpty(l[..|l| - 1]);
    }
  }

  /** One more occurrence of a key absent from `l` changes nothing. */
  lemma {:induction false} SumCountsAbsent<T>(l: seq<T>, m: multiset<T>, x: T)
    requires x !in l
    ensures SumCounts(l, m + multiset{x}) == SumCounts(l, m)
  {
    if l != [] {
      assert l == l[..|l| - 1] + [l[|l| - 1]];
      SumCountsAbsent(l[..|l| - 1], m, x);
    }
  }

  /** One more occurrence of a key listed once in `l` adds one. */
  lemma {:induction false} SumCountsAdd<T>(l: seq<T>, m: multiset<T>, x: T)
    requires NoDuplicates(l) && x in l
    ensures SumCounts(l, m + multiset{x}) == SumCounts(l, m) + 1
  {
    var init := l[..|l| - 1];
    assert l == init + [l[|l| - 1]];
    if l[|l| - 1] == x {
      assert x !in init by {
        forall k | 0 <= k < |init| ensures init[k] != x {
          assert init[k] == l[k];
        }
      }
      SumCountsAbsent(init, m, x);
    } else {
      assert NoDuplicates(init) by {
        forall i, j | 0 <= i < j < |init| ensures init[i] != init[j] {
          assert init[i] == l[i] && init[j] == l[j];
        }
      }
      SumCountsAdd(init, m, x);
    }
  }

  /** Summing the counts of `keys` over a list that holds every key once gives the number
      of keys. */
  lemma {:induction false} SumCountsCovers<T>(l: seq<T>, keys: seq<T>)
    requires NoDuplicates(l) && forall k :: 0 <= k < |keys| ==> keys[k] in l
    ensures SumCounts(l, multiset(keys)) == |keys|
  {
    if keys == [] {
      SumCountsEmpty(l);
    } else {
      var ks := keys[..|keys| - 1];
      assert keys == ks + [keys[|keys| - 1]];
      SumCountsCovers(l, ks);
      SumCountsAdd(l, multiset(ks), keys[|keys| - 1]);
    }
  }

  /** A duplicate-free list holds each value at most once. */
  lemma {:induction false} NoDuplicatesCount<T>(xs: seq<T>, x: T)
    requires NoDuplicates(xs)
    ensures multiset(xs)[x] <= 1
  {
    if xs != [] {
      var init := xs[..|xs| - 1];
      assert xs == init + [xs[|xs| - 1]];
      assert NoDuplicates(init) by {
        forall i, j | 0 <= i < j < |init| ensures init[i] != init[j] {
          assert init[i] == xs[i] && init[j] == xs[j];
        }
      }
      NoDuplicatesCount(init, x);
      if xs[|xs| - 1] == x {
        assert x !in init by {
          forall k | 0 <= k < |init| ensures init[k] != x {
            assert init[k] == xs[k];
          }
        }
      }
    }
  }

  /** A permutation of a duplicate-free list is duplicate-free. */
  lemma NoDuplicatesPermutation<T>(a: seq<T>, b: seq<T>)
    requires NoDuplicates(a) && multiset(a) == multiset(b)
    ensures NoDuplicates(b)
  {
    forall i, j | 0 <= i < j < |b| ensures b[i] != b[j] {
      if b[i] == b[j] {
        assert b == b[..j] + [b[j]] + b[j + 1..];
        assert b[..j][i] == b[i];
        assert multiset(b)[b[i]] >= 2 by {
          assert multiset(b) == multiset(b[..j]) + multiset{b[j]} + multiset(b[j + 1..]);
          assert b[i] in multiset(b[..j]);
        }
        NoDuplicatesCount(a, b[i]);
        assert false;
      }
    }
  }

  /** `order` and `counts` are the first appearances and the counts of `seen`. */
  ghost predicate Counted<T(!new)>(seen: seq<T>, order: seq<T>, counts: map<T, nat>) {
    order == Firsts(seen)
    && (forall x :: x in counts <==> x in multiset(seen))
    && (forall x :: x in counts ==> counts[x] == multiset(seen)[x])
  }

  /** One step of the count: `count[key] = (count[key] || 0) + 1`. */
  method CountOne<T(==,!new)>(ghost seen: seq<T>, order: seq<T>, counts: map<T, nat>, key: T)
    returns (order': seq<T>, counts': map<T, nat>)
    requires Counted(seen, order, counts)
    ensures Counted(seen + [key], order', counts')
  {
    var keys := seen + [key];
    assert keys[..|keys| - 1] == seen;
    assert Firsts(keys) == if key in order then order else order + [key];
    assert multiset(keys) == multiset(seen) + multiset{key};
    assert key in counts <==> key in order by {
      assert key in counts <==> key in seen;
      if key in seen {
        var k :| 0 <= k < |seen| && seen[k] == key;
      }
    }
    if key in counts {
      counts' := counts[key := counts[key] + 1];
      order' := order;
    } else {
      counts' := counts[key := 1];
      order' := order + [key];
    }
  }

  /** `count[key] = (count[key] || 0) + 1` over `keys`: the keys in order of first
      appearance and, for each, how often it occurs. */
  method CountBy<T(==,!new)>(keys: seq<T>) returns (order: seq<T>, counts: map<T, nat>)
    ensures order == Firsts(keys)
    ensures forall x :: x in counts <==> x in multiset(keys)
    ensures forall x :: x in counts ==> counts[x] == multiset(keys)[x]
  {
    order := [];
    counts := map[];
    for i := 0 to |keys|
      invariant Counted(keys[..i], order, counts)
    {
      assert keys[..i + 1] == keys[..i] + [keys[i]];
      order, counts := CountOne(keys[..i], order, counts, keys[i]);
    }
    assert keys[..|keys|] == keys;
  }
}
