/**
 * Sequence operations shared by the in-memory repository, the client store and the pages:
 * `findIndex`, `find`, `splice(i, 1)`, "replace the entries with this id" (`map`),
 * "keep / drop the entries with this id" (`filter`) and the stable `Array.prototype.sort`
 * keyed by an integer.  Entities are reached through a key function, so one definition
 * serves every record type.
 */
module Seqs {
  import opened Wrappers

  /** `s` is `r` with some entries dropped, the rest kept in order. */
  ghost predicate IsSubsequence<T>(r: seq<T>, s: seq<T>)
    decreases |s|
  {
    r == [] || (s != [] && ((r[0] == s[0] && IsSubsequence(r[1..], s[1..])) || IsSubsequence(r, s[1..])))
  }

  /** Appending an entry to `s` keeps every subsequence of `s` one of the longer sequence. */
  lemma {:induction false} SubsequenceOfSnoc<T>(r: seq<T>, s: seq<T>, x: T)
    requires IsSubsequence(r, s)
    ensures IsSubsequence(r, s + [x])
    decreases |s|
  {
    if r != [] {
      assert (s + [x])[0] == s[0] && (s + [x])[1..] == s[1..] + [x];
      if r[0] == s[0] && IsSubsequence(r[1..], s[1..]) {
        SubsequenceOfSnoc(r[1..], s[1..], x);
      } else {
        SubsequenceOfSnoc(r, s[1..], x);
      }
    }
  }

  /** Appending the same entry to a subsequence and to the sequence keeps it a subsequence. */
  lemma {:induction false} SubsequenceSnoc<T>(r: seq<T>, s: seq<T>, x: T)
    requires IsSubsequence(r, s)
    ensures IsSubsequence(r + [x], s + [x])
    decreases |s|
  {
    if s == [] {
      assert r == [] && r + [x] == [x] && s + [x] == [x];
      assert [x][1..] == [];
    } else {
      assert (s + [x])[0] == s[0] && (s + [x])[1..] == s[1..] + [x];
      if r == [] {
        SubsequenceSnoc(r, s[1..], x);
      } else {
        assert (r + [x])[0] == r[0] && (r + [x])[1..] == r[1..] + [x];
        if r[0] == s[0] && IsSubsequence(r[1..], s[1..]) {
          SubsequenceSnoc(r[1..], s[1..], x);
        } else {
          SubsequenceSnoc(r, s[1..], x);
        }
      }
    }
  }

  /** `findIndex(e => key(e) === id)`: the first index whose key is `id`, or -1. */
  function FindIndex<T>(key: T -> string, s: seq<T>, id: string): (i: int)
    ensures -1 <= i < |s|
    ensures 0 <= i ==> key(s[i]) == id && forall j :: 0 <= j < i ==> key(s[j]) != id
    ensures i == -1 <==> forall j :: 0 <= j < |s| ==> key(s[j]) != id
  {
    if s == [] then -1
    else if key(s[0]) == id then 0
    else
      var k := FindIndex(key, s[1..], id);
      if k == -1 then -1 else k + 1
  }

  /** `find(e => key(e) === id)`: the first entry whose key is `id`. */
  function FindById<T>(key: T -> string, s: seq<T>, id: string): (r: Option<T>)
    ensures r.None? <==> forall j :: 0 <= j < |s| ==> key(s[j]) != id
    ensures r.Some? ==> key(r.value) == id && r.value in s
    ensures r.Some? ==> exists i :: 0 <= i < |s| && s[i] == r.value && forall j :: 0 <= j < i ==> key(s[j]) != id
  {
    var i := FindIndex(key, s, id);
    if i == -1 then None else Some(s[i])
  }

  /** `splice(i, 1)`: the entry at `i` removed, the others kept in order. */
  function RemoveAt<T>(s: seq<T>, i: nat): (r: seq<T>)
    requires i < |s|
    ensures |r| == |s| - 1
    ensures forall j :: 0 <= j < i ==> r[j] == s[j]
    ensures forall j :: i <= j < |r| ==> r[j] == s[j + 1]
  {
    s[..i] + s[i + 1..]
  }

  /** `map(e => key(e) === id ? x : e)`. */
  function ReplaceById<T>(key: T -> string, s: seq<T>, id: string, x: T): (r: seq<T>)
    ensures |r| == |s|
    ensures forall i :: 0 <= i < |s| && key(s[i]) == id ==> r[i] == x
    ensures forall i :: 0 <= i < |s| && key(s[i]) != id ==> r[i] == s[i]
  {
    if s == [] then []
    else [if key(s[0]) == id then x else s[0]] + ReplaceById(key, s[1..], id, x)
  }

  /** `filter(e => key(e) !== id)`. */
  function RemoveById<T>(key: T -> string, s: seq<T>, id: string): (r: seq<T>)
    ensures |r| <= |s|
    ensures forall i :: 0 <= i < |r| ==> r[i] in s && key(r[i]) != id
    ensures forall i :: 0 <= i < |s| && key(s[i]) != id ==> s[i] in r
  {
    if s == [] then []
    else if key(s[0]) != id then [s[0]] + RemoveById(key, s[1..], id)
    else RemoveById(key, s[1..], id)
  }

  /** `filter(e => key(e) === id)`. */
  function KeepById<T>(key: T -> string, s: seq<T>, id: string): (r: seq<T>)
    ensures |r| <= |s|
    ensures forall i :: 0 <= i < |r| ==> r[i] in s && key(r[i]) == id
    ensures forall i :: 0 <= i < |s| && key(s[i]) == id ==> s[i] in r
  {
    if s == [] then []
    else if key(s[0]) == id then [s[0]] + KeepById(key, s[1..], id)
    else KeepById(key, s[1..], id)
  }

  lemma {:induction false} RemoveByIdIsSubsequence<T>(key: T -> string, s: seq<T>, id: string)
    ensures IsSubsequence(RemoveById(key, s, id), s)
  {
    if s != [] {
      RemoveByIdIsSubsequence(key, s[1..], id);
      var r := RemoveById(key, s, id);
      if key(s[0]) != id {
        assert r[0] == s[0] && r[1..] == RemoveById(key, s[1..], id);
      }
    }
  }

  lemma {:induction false} KeepByIdIsSubsequence<T>(key: T -> string, s: seq<T>, id: string)
    ensures IsSubsequence(KeepById(key, s, id), s)
  {
    if s != [] {
      KeepByIdIsSubsequence(key, s[1..], id);
      var r := KeepById(key, s, id);
      if key(s[0]) == id {
        assert r[0] == s[0] && r[1..] == KeepById(key, s[1..], id);
      }
    }
  }

  /** Keeping one id keeps each record with that id as many times as it occurs, and no other. */
  lemma {:induction false} KeepByIdCounts<T>(key: T -> string, s: seq<T>, id: string)
    ensures forall x :: multiset(KeepById(key, s, id))[x] == if key(x) == id then multiset(s)[x] else 0
  {
    if s != [] {
      KeepByIdCounts(key, s[1..], id);
      assert s == [s[0]] + s[1..];
      assert multiset(s) == multiset{s[0]} + multiset(s[1..]);
    }
  }

  /** Keeping and dropping one id split a sequence: the two parts add up to it, element by element. */
  lemma {:induction false} KeepRemovePartition<T>(key: T -> string, s: seq<T>, id: string)
    ensures |KeepById(key, s, id)| + |RemoveById(key, s, id)| == |s|
    ensures multiset(KeepById(key, s, id)) + multiset(RemoveById(key, s, id)) == multiset(s)
  {
    if s != [] {
      KeepRemovePartition(key, s[1..], id);
      assert s == [s[0]] + s[1..];
    }
  }

  /** Dropping an id that no entry has changes nothing. */
  lemma {:induction false} RemoveAbsentId<T>(key: T -> string, s: seq<T>, id: string)
    requires forall i :: 0 <= i < |s| ==> key(s[i]) != id
    ensures RemoveById(key, s, id) == s
  {
    if s != [] {
      RemoveAbsentId(key, s[1..], id);
    }
  }

  /** Replacing an id that no entry has changes nothing. */
  lemma ReplaceAbsentId<T>(key: T -> string, s: seq<T>, id: string, x: T)
    requires forall i :: 0 <= i < |s| ==> key(s[i]) != id
    ensures ReplaceById(key, s, id, x) == s
  {
  }

  /** `filter(p)`. */
  function Filter<T>(p: T -> bool, s: seq<T>): (r: seq<T>)
    ensures |r| <= |s|
    ensures forall i :: 0 <= i < |r| ==> r[i] in s && p(r[i])
    ensures forall i :: 0 <= i < |s| && p(s[i]) ==> s[i] in r
  {
    if s == [] then []
    else if p(s[0]) then [s[0]] + Filter(p, s[1..])
    else Filter(p, s[1..])
  }

  lemma {:induction false} FilterIsSubsequence<T>(p: T -> bool, s: seq<T>)
    ensures IsSubsequence(Filter(p, s), s)
  {
    if s != [] {
      FilterIsSubsequence(p, s[1..]);
      var r := Filter(p, s);
      if p(s[0]) {
        assert r[0] == s[0] && r[1..] == Filter(p, s[1..]);
      }
    }
  }

  /** An element is kept exactly when it is in the sequence and satisfies the predicate. */
  lemma FilterMembers<T>(p: T -> bool, s: seq<T>, x: T)
    ensures x in Filter(p, s) <==> x in s && p(x)
  {
    var r := Filter(p, s);
    if x in r {
      var i :| 0 <= i < |r| && r[i] == x;
    }
    if x in s && p(x) {
      var i :| 0 <= i < |s| && s[i] == x;
    }
  }

  /** A filter and the filter by the opposite test split a sequence: counts and entries add up. */
  lemma {:induction false} FilterSplit<T>(p: T -> bool, q: T -> bool, s: seq<T>)
    requires forall x :: q(x) == !p(x)
    ensures |Filter(p, s)| + |Filter(q, s)| == |s|
    ensures multiset(Filter(p, s)) + multiset(Filter(q, s)) == multiset(s)
  {
    if s != [] {
      FilterSplit(p, q, s[1..]);
      assert s == [s[0]] + s[1..];
    }
  }

  // ---------------------------------------------------------------------------------------
  // Stable sort by an integer key (ECMAScript requires `Array.prototype.sort` to be stable).

  ghost predicate SortedBy<T>(key: T -> int, r: seq<T>)
  {
    forall i, j :: 0 <= i < j < |r| ==> key(r[i]) <= key(r[j])
  }

  /** Puts `x` after every entry of `r` whose key is at most `key(x)`. */
  function InsertBy<T>(key: T -> int, r: seq<T>, x: T): seq<T>
  {
    if r == [] || key(r[|r| - 1]) <= key(x) then r + [x]
    else InsertBy(key, r[..|r| - 1], x) + [r[|r| - 1]]
  }

  /** Insertion sort by `key`: the order a comparator `(a, b) => key(a) - key(b)` gives. */
  function SortBy<T>(key: T -> int, s: seq<T>): seq<T>
  {
    if s == [] then [] else InsertBy(key, SortBy(key, s[..|s| - 1]), s[|s| - 1])
  }

  /** `filter(e => key(e) === k)` on an integer key: one tier of a sort. */
  function KeepByKey<T>(key: T -> int, s: seq<T>, k: int): (r: seq<T>)
    ensures |r| <= |s|
  {
    if s == [] then []
    else if key(s[0]) == k then [s[0]] + KeepByKey(key, s[1..], k)
    else KeepByKey(key, s[1..], k)
  }

  lemma {:induction false} KeepByKeyAppend<T>(key: T -> int, a: seq<T>, b: seq<T>, k: int)
    ensures KeepByKey(key, a + b, k) == KeepByKey(key, a, k) + KeepByKey(key, b, k)
  {
    if a == [] {
      assert a + b == b;
    } else {
      assert (a + b)[1..] == a[1..] + b;
      KeepByKeyAppend(key, a[1..], b, k);
    }
  }

  lemma {:induction false} KeepByKeyNone<T>(key: T -> int, s: seq<T>, k: int)
    requires forall i :: 0 <= i < |s| ==> key(s[i]) != k
    ensures KeepByKey(key, s, k) == []
  {
    if s != [] {
      KeepByKeyNone(key, s[1..], k);
    }
  }

  lemma {:induction false} KeepByKeyAll<T>(key: T -> int, s: seq<T>, k: int)
    requires forall i :: 0 <= i < |s| ==> key(s[i]) == k
    ensures KeepByKey(key, s, k) == s
  {
    if s != [] {
      KeepByKeyAll(key, s[1..], k);
    }
  }

  lemma {:induction false} InsertByMultiset<T>(key: T -> int, r: seq<T>, x: T)
    ensures multiset(InsertBy(key, r, x)) == multiset(r) + multiset{x}
  {
    if r != [] && key(r[|r| - 1]) > key(x) {
      InsertByMultiset(key, r[..|r| - 1], x);
      assert r == r[..|r| - 1] + [r[|r| - 1]];
    }
  }

  lemma {:induction false} InsertBySorted<T>(key: T -> int, r: seq<T>, x: T)
    requires SortedBy(key, r)
    ensures SortedBy(key, InsertBy(key, r, x))
  {
    if r != [] && key(r[|r| - 1]) > key(x) {
      var init, last := r[..|r| - 1], r[|r| - 1];
      InsertBySorted(key, init, x);
      InsertByMultiset(key, init, x);
      var ins := InsertBy(key, init, x);
      forall i | 0 <= i < |ins| ensures key(ins[i]) <= key(last) {
        assert ins[i] in multiset(init) + multiset{x};
        if ins[i] != x {
          assert ins[i] in init;
        }
      }
    }
  }

  /** Inserting `x` adds it to its own tier, after the entries of that tier already there. */
  lemma {:induction false} InsertByTier<T>(key: T -> int, r: seq<T>, x: T, k: int)
    ensures KeepByKey(key, InsertBy(key, r, x), k) == KeepByKey(key, r, k) + KeepByKey(key, [x], k)
  {
    if r == [] || key(r[|r| - 1]) <= key(x) {
      KeepByKeyAppend(key, r, [x], k);
    } else {
      var init, last := r[..|r| - 1], r[|r| - 1];
      InsertByTier(key, init, x, k);
      KeepByKeyAppend(key, InsertBy(key, init, x), [last], k);
      KeepByKeyAppend(key, init, [last], k);
      assert r == init + [last];
    }
  }

  /** `SortBy` orders by key and is a permutation of its input. */
  lemma SortBySortsAndPermutes<T>(key: T -> int, s: seq<T>)
    ensures SortedBy(key, SortBy(key, s))
    ensures multiset(SortBy(key, s)) == multiset(s)
    ensures |SortBy(key, s)| == |s|
  {
    SortBySorts(key, s);
    SortByPermutes(key, s);
  }

  lemma {:induction false} SortBySorts<T>(key: T -> int, s: seq<T>)
    ensures SortedBy(key, SortBy(key, s))
  {
    if s != [] {
      SortBySorts(key, s[..|s| - 1]);
      InsertBySorted(key, SortBy(key, s[..|s| - 1]), s[|s| - 1]);
    }
  }

  lemma {:induction false} SortByPermutes<T>(key: T -> int, s: seq<T>)
    ensures multiset(SortBy(key, s)) == multiset(s)
    ensures |SortBy(key, s)| == |s|
  {
    if s != [] {
      var init, last := s[..|s| - 1], s[|s| - 1];
      SortByPermutes(key, init);
      InsertByMultiset(key, SortBy(key, init), last);
      assert s == init + [last];
      assert |SortBy(key, s)| == |multiset(SortBy(key, s))|;
    }
  }

  /** `SortBy` is stable: within each key, the original relative order is kept. */
  lemma {:induction false} SortByStable<T>(key: T -> int, s: seq<T>, k: int)
    ensures KeepByKey(key, SortBy(key, s), k) == KeepByKey(key, s, k)
  {
    if s != [] {
      var init, last := s[..|s| - 1], s[|s| - 1];
      SortByStable(key, init, k);
      InsertByTier(key, SortBy(key, init), last, k);
      KeepByKeyAppend(key, init, [last], k);
      assert s == init + [last];
    }
  }

  lemma KeepByKeyCons<T>(key: T -> int, x: T, t: seq<T>, k: int)
    ensures KeepByKey(key, [x] + t, k) == (if key(x) == k then [x] else []) + KeepByKey(key, t, k)
  {
    assert ([x] + t)[1..] == t;
  }

  /** Puts the head of a three-tier sequence back in front of the tiers of its tail. */
  lemma ConsThreeTiers<T>(key: T -> int, x: T, t: seq<T>)
    requires 0 <= key(x) <= 2
    requires key(x) >= 1 ==> KeepByKey(key, t, 0) == []
    requires key(x) == 2 ==> KeepByKey(key, t, 1) == []
    requires t == KeepByKey(key, t, 0) + KeepByKey(key, t, 1) + KeepByKey(key, t, 2)
    ensures [x] + t == KeepByKey(key, [x] + t, 0) + KeepByKey(key, [x] + t, 1) + KeepByKey(key, [x] + t, 2)
  {
    KeepByKeyCons(key, x, t, 0);
    KeepByKeyCons(key, x, t, 1);
    KeepByKeyCons(key, x, t, 2);
    ConcatThree([x], KeepByKey(key, t, 0), KeepByKey(key, t, 1), KeepByKey(key, t, 2), key(x));
  }

  /** Moving `xs` in front of part `k` of a three-part concatenation whose earlier parts are empty. */
  lemma ConcatThree<T>(xs: seq<T>, a: seq<T>, b: seq<T>, c: seq<T>, k: int)
    requires 0 <= k <= 2
    requires k >= 1 ==> a == []
    requires k == 2 ==> b == []
    ensures xs + (a + b + c) == (if k == 0 then xs else []) + a + ((if k == 1 then xs else []) + b) + ((if k == 2 then xs else []) + c)
  {
    if k == 0 {
      assert xs + (a + b + c) == xs + a + b + c;
    } else if k == 1 {
      assert xs + (b + c) == (xs + b) + c;
    }
  }

  /** A sequence sorted by a key that takes only the values 0, 1 and 2 is its three tiers in turn. */
  lemma {:induction false} SortedThreeTiers<T>(key: T -> int, s: seq<T>)
    requires SortedBy(key, s)
    requires forall i :: 0 <= i < |s| ==> 0 <= key(s[i]) <= 2
    ensures s == KeepByKey(key, s, 0) + KeepByKey(key, s, 1) + KeepByKey(key, s, 2)
  {
    if s != [] {
      var t := s[1..];
      assert s == [s[0]] + t;
      forall i | 0 <= i < |t| ensures key(s[0]) <= key(t[i]) <= 2 && 0 <= key(t[i]) {
        assert t[i] == s[i + 1];
      }
      assert SortedBy(key, t) by {
        forall i, j | 0 <= i < j < |t| ensures key(t[i]) <= key(t[j]) {
          assert t[i] == s[i + 1] && t[j] == s[j + 1];
        }
      }
      SortedThreeTiers(key, t);
      if key(s[0]) >= 1 {
        KeepByKeyNone(key, t, 0);
      }
      if key(s[0]) == 2 {
        KeepByKeyNone(key, t, 1);
      }
      ConsThreeTiers(key, s[0], t);
    }
  }
}
