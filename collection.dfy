/**
 * A MongoDB collection seen as the sequence of its documents in natural
 * (insertion) order, with the queries the handlers issue: `findById`,
 * `findOne` (first match), `find` (all matches, in order), `$set` by id,
 * delete by id, `countDocuments`, and `sort` on one numeric key.
 */
module Collection {
  import opened Common

  /** `_id` is a unique index of every collection. */
  ghost predicate UniqueIds<T>(s: seq<Doc<T>>)
  {
    forall i, j :: 0 <= i < j < |s| ==> s[i].id != s[j].id
  }

  /** `findById`: the document with that id, if any. */
  function Find<T>(s: seq<Doc<T>>, id: Id): (r: Option<Doc<T>>)
    ensures r.Some? ==> r.value.id == id && r.value in s
    ensures r.None? ==> forall k :: 0 <= k < |s| ==> s[k].id != id
  {
    if s == [] then None
    else if s[0].id == id then Some(s[0])
    else Find(s[1..], id)
  }

  /** With unique ids, `findById` returns the one document carrying the id. */
  lemma {:induction false} FindAt<T>(s: seq<Doc<T>>, k: nat)
    requires UniqueIds(s) && k < |s|
    ensures Find(s, s[k].id) == Some(s[k])
  {
    if k > 0 {
      assert s[0].id != s[k].id;
      FindAt(s[1..], k - 1);
    }
  }

  /** Inserting a document makes it findable and leaves every other lookup as it was. */
  lemma {:induction false} FindAppend<T>(s: seq<Doc<T>>, d: Doc<T>, id: Id)
    ensures Find(s + [d], id) == if Find(s, id).Some? then Find(s, id)
                                 else if d.id == id then Some(d) else None
  {
    if s != [] {
      assert (s + [d])[1..] == s[1..] + [d];
      FindAppend(s[1..], d, id);
    }
  }

  /** Appending a document with a fresh id keeps the ids unique. */
  lemma AppendUnique<T>(s: seq<Doc<T>>, d: Doc<T>)
    requires UniqueIds(s) && Find(s, d.id).None?
    ensures UniqueIds(s + [d])
  {
  }

  /** `findOne`: the index of the first document (in natural order) that satisfies `p`. */
  function FirstIndex<T>(s: seq<T>, p: T -> bool): (r: Option<nat>)
    ensures r.Some? ==> r.value < |s| && p(s[r.value]) && forall k :: 0 <= k < r.value ==> !p(s[k])
    ensures r.None? ==> forall k :: 0 <= k < |s| ==> !p(s[k])
  {
    if s == [] then None
    else if p(s[0]) then Some(0)
    else match FirstIndex(s[1..], p)
      case None => None
      case Some(i) => Some(i + 1)
  }

  /** Two filters that agree on every document select the same first document. */
  lemma {:induction false} FirstIndexSameFilter<T>(s: seq<T>, p: T -> bool, q: T -> bool)
    requires forall x :: p(x) == q(x)
    ensures FirstIndex(s, p) == FirstIndex(s, q)
  {
    if s != [] && !p(s[0]) {
      FirstIndexSameFilter(s[1..], p, q);
    }
  }

  /** When no document of `s` satisfies `p`, one appended that does is the first match. */
  lemma {:induction false} FirstIndexAppended<T>(s: seq<T>, x: T, p: T -> bool)
    requires forall k :: 0 <= k < |s| ==> !p(s[k])
    requires p(x)
    ensures FirstIndex(s + [x], p) == Some(|s|)
  {
    if s != [] {
      assert (s + [x])[1..] == s[1..] + [x];
      FirstIndexAppended(s[1..], x, p);
    }
  }

  /** `$set` on the document with id `id`: it gets body `v`; every position keeps its id. */
  function Update<T>(s: seq<Doc<T>>, id: Id, v: T): (r: seq<Doc<T>>)
    ensures |r| == |s|
    ensures forall k :: 0 <= k < |s| ==> r[k].id == s[k].id
    ensures forall k :: 0 <= k < |s| && s[k].id != id ==> r[k] == s[k]
    ensures forall k :: 0 <= k < |s| && s[k].id == id ==> r[k].body == v
  {
    seq(|s|, k requires 0 <= k < |s| => if s[k].id == id then Doc(id, v) else s[k])
  }

  /** After `$set`, the updated document is found with its new body, every other one as before. */
  lemma {:induction false} FindAfterUpdate<T>(s: seq<Doc<T>>, id: Id, v: T, k: Id)
    ensures Find(Update(s, id, v), k) ==
            if k != id then Find(s, k)
            else if Find(s, id).Some? then Some(Doc(id, v)) else None
  {
    if s != [] {
      assert Update(s, id, v)[1..] == Update(s[1..], id, v);
      FindAfterUpdate(s[1..], id, v, k);
    }
  }

  lemma UpdateUnique<T>(s: seq<Doc<T>>, id: Id, v: T)
    requires UniqueIds(s)
    ensures UniqueIds(Update(s, id, v))
  {
  }

  /** `find(filter)`: the documents that satisfy `p`, in their original order. */
  function Where<T>(s: seq<T>, p: T -> bool): (r: seq<T>)
    ensures |r| <= |s|
    ensures forall k :: 0 <= k < |r| ==> r[k] in s && p(r[k])
    ensures forall k :: 0 <= k < |s| && p(s[k]) ==> s[k] in r
  {
    if s == [] then []
    else if p(s[0]) then [s[0]] + Where(s[1..], p)
    else Where(s[1..], p)
  }

  /** An element is kept by the filter exactly when it is in `s` and passes `p`. */
  lemma WhereMembers<T>(s: seq<T>, p: T -> bool)
    ensures forall x :: x in Where(s, p) <==> x in s && p(x)
  {
    var r := Where(s, p);
    forall x | x in s && p(x)
      ensures x in r
    {
      var k :| 0 <= k < |s| && s[k] == x;
    }
  }

  /** A filter of documents with unique ids has unique ids. */
  lemma {:induction false} WhereUnique<T>(s: seq<Doc<T>>, p: Doc<T> -> bool)
    requires UniqueIds(s)
    ensures UniqueIds(Where(s, p))
  {
    if s != [] {
      WhereUnique(s[1..], p);
      var w := Where(s[1..], p);
      forall k | 0 <= k < |w|
        ensures w[k].id != s[0].id
      {
        assert w[k] in s[1..];
      }
    }
  }

  /** Deleting the document with id `id` (`findByIdAndDelete`, or `$pull` on an id list). */
  function Remove<T>(s: seq<Doc<T>>, id: Id): (r: seq<Doc<T>>)
    ensures forall k :: 0 <= k < |r| ==> r[k] in s && r[k].id != id
    ensures forall k :: 0 <= k < |s| && s[k].id != id ==> s[k] in r
  {
    Where(s, (d: Doc<T>) => d.id != id)
  }

  /** Deleting a document keeps the ids unique and leaves no document with that id. */
  lemma RemoveUnique<T>(s: seq<Doc<T>>, id: Id)
    requires UniqueIds(s)
    ensures UniqueIds(Remove(s, id)) && Find(Remove(s, id), id).None?
  {
    WhereUnique(s, (d: Doc<T>) => d.id != id);
  }

  /** Filtering an appended sequence is filtering the prefix, then the last element. */
  lemma {:induction false} WhereAppend<T>(s: seq<T>, x: T, p: T -> bool)
    ensures Where(s + [x], p) == Where(s, p) + (if p(x) then [x] else [])
  {
    if s != [] {
      assert (s + [x])[1..] == s[1..] + [x];
      WhereAppend(s[1..], x, p);
    }
  }

  /** Filtering a concatenation is concatenating the filtered parts. */
  lemma {:induction false} WhereConcat<T>(a: seq<T>, b: seq<T>, p: T -> bool)
    ensures Where(a + b, p) == Where(a, p) + Where(b, p)
  {
    if a == [] {
      assert a + b == b;
    } else {
      assert (a + b)[0] == a[0] && (a + b)[1..] == a[1..] + b;
      WhereConcat(a[1..], b, p);
      if p(a[0]) {
        calc {
          Where(a + b, p);
          [a[0]] + Where(a[1..] + b, p);
          [a[0]] + (Where(a[1..], p) + Where(b, p));
          ([a[0]] + Where(a[1..], p)) + Where(b, p);
        }
      }
    }
  }

  /** A filter that every element passes keeps the sequence as it is. */
  lemma {:induction false} WhereKeepsAll<T>(s: seq<T>, p: T -> bool)
    requires forall k :: 0 <= k < |s| ==> p(s[k])
    ensures Where(s, p) == s
  {
    if s != [] {
      WhereKeepsAll(s[1..], p);
    }
  }

  /** Two filters that agree on every element of `s` select the same subsequence. */
  lemma {:induction false} WhereSameFilter<T>(s: seq<T>, p: T -> bool, q: T -> bool)
    requires forall k :: 0 <= k < |s| ==> p(s[k]) == q(s[k])
    ensures Where(s, p) == Where(s, q)
  {
    if s != [] {
      WhereSameFilter(s[1..], p, q);
    }
  }

  /** Deleting the document just appended restores the collection. */
  lemma RemoveAppended<T>(s: seq<Doc<T>>, d: Doc<T>)
    requires Find(s, d.id).None?
    ensures Remove(s + [d], d.id) == s
  {
    WhereAppend(s, d, (e: Doc<T>) => e.id != d.id);
    WhereKeepsAll(s, (e: Doc<T>) => e.id != d.id);
  }

  /** The positions of `s` whose element satisfies `p`. */
  ghost function Hits<T>(s: seq<T>, p: T -> bool): set<nat>
  {
    set k: nat | k < |s| && p(s[k])
  }

  /** Appending an element adds its position to the hits exactly when it satisfies `p`. */
  lemma HitsAppend<T>(s: seq<T>, x: T, p: T -> bool)
    ensures Hits(s + [x], p) == Hits(s, p) + (if p(x) then {|s|} else {})
    ensures |s| !in Hits(s, p)
  {
    var t := s + [x];
    forall k: nat | k < |s|
      ensures t[k] == s[k]
    {
    }
  }

  /** The filter keeps one element per position that satisfies `p`. */
  lemma {:induction false} WhereSize<T>(s: seq<T>, p: T -> bool)
    ensures |Where(s, p)| == |Hits(s, p)|
  {
    if s != [] {
      var n := |s| - 1;
      var init := s[..n];
      assert s == init + [s[n]];
      WhereAppend(init, s[n], p);
      WhereSize(init, p);
      HitsAppend(init, s[n], p);
    }
  }

  /** `countDocuments(filter)`: the number of documents that satisfy the filter. */
  function Count<T>(s: seq<T>, p: T -> bool): (n: nat)
    ensures n <= |s|
    ensures n == |Hits(s, p)|
  {
    WhereSize(s, p);
    |Where(s, p)|
  }

  /** Counting a sequence counts its first element, then the rest. */
  lemma CountCons<T>(x: T, s: seq<T>, p: T -> bool)
    ensures Count([x] + s, p) == (if p(x) then 1 else 0) + Count(s, p)
  {
    assert ([x] + s)[1..] == s;
  }

  /** `s` is in ascending order of `key`. */
  ghost predicate SortedBy<T>(s: seq<T>, key: T -> int)
  {
    forall i, j :: 0 <= i < j < |s| ==> key(s[i]) <= key(s[j])
  }

  /** A filter of a sorted sequence is sorted. */
  lemma {:induction false} WhereSorted<T>(s: seq<T>, p: T -> bool, key: T -> int)
    requires SortedBy(s, key)
    ensures SortedBy(Where(s, p), key)
  {
    if s != [] {
      WhereSorted(s[1..], p, key);
      var w := Where(s[1..], p);
      forall k | 0 <= k < |w|
        ensures key(s[0]) <= key(w[k])
      {
        assert w[k] in s[1..];
      }
    }
  }

  /** Inserts `x` before the first element with a larger-or-equal key. */
  function InsertBy<T(==)>(x: T, s: seq<T>, key: T -> int): (r: seq<T>)
    ensures multiset(r) == multiset(s) + multiset{x}
  {
    if s == [] || key(x) <= key(s[0]) then [x] + s
    else
      assert s == [s[0]] + s[1..];
      [s[0]] + InsertBy(x, s[1..], key)
  }

  /** Inserting into a sorted sequence keeps it sorted. */
  lemma {:induction false} InsertBySorted<T>(x: T, s: seq<T>, key: T -> int)
    requires SortedBy(s, key)
    ensures SortedBy(InsertBy(x, s, key), key)
  {
    if s != [] && key(x) > key(s[0]) {
      InsertBySorted(x, s[1..], key);
      var rest := InsertBy(x, s[1..], key);
      assert s == [s[0]] + s[1..];
      forall k | 0 <= k < |rest|
        ensures key(s[0]) <= key(rest[k])
      {
        assert rest[k] in multiset(rest);
        if rest[k] != x {
          assert rest[k] in multiset(s[1..]);
        }
      }
    }
  }

  /** `sort({key: 1})`: a permutation of `s` in ascending order of `key` (ties keep their order). */
  function SortBy<T(==)>(s: seq<T>, key: T -> int): (r: seq<T>)
    ensures SortedBy(r, key)
    ensures multiset(r) == multiset(s)
  {
    if s == [] then []
    else
      assert s == [s[0]] + s[1..];
      var t := SortBy(s[1..], key);
      InsertBySorted(s[0], t, key);
      InsertBy(s[0], t, key)
  }

  /** Sorting neither adds nor loses elements. */
  lemma SortByMembers<T>(s: seq<T>, key: T -> int)
    ensures forall x :: x in SortBy(s, key) <==> x in s
  {
    var r := SortBy(s, key);
    forall x
      ensures x in r <==> x in s
    {
      assert x in r <==> x in multiset(r);
      assert x in s <==> x in multiset(s);
    }
  }

  /** Sorting a sequence that is already in order returns it unchanged. */
  lemma {:induction false} SortByFixesSorted<T>(s: seq<T>, key: T -> int)
    requires SortedBy(s, key)
    ensures SortBy(s, key) == s
  {
    if s != [] {
      SortByFixesSorted(s[1..], key);
      assert s == [s[0]] + s[1..];
    }
  }
}
