/** Request parameters: a Python `dict` from parameter name to string value,
    kept as the sequence of its entries in insertion order. */
module Params {
  import opened Wrappers
  import Text

  datatype Entry = Entry(key: string, value: string)

  /** Entries in insertion order; a `dict` never holds a key twice. */
  type Params = seq<Entry>

  ghost predicate DistinctKeys(p: Params) {
    forall i, j :: 0 <= i < j < |p| ==> p[i].key != p[j].key
  }

  predicate Has(p: Params, k: string) {
    exists i :: 0 <= i < |p| && p[i].key == k
  }

  /** `p.get(k)` */
  function Get(p: Params, k: string): (r: Option<string>)
    ensures r.Some? <==> Has(p, k)
    ensures r.Some? ==> Entry(k, r.value) in p
  {
    if p == [] then None
    else if p[0].key == k then Some(p[0].value)
    else Get(p[1..], k)
  }

  /** `p.get(k)` with a non-empty result: a Python truthy value. */
  predicate HasValue(p: Params, k: string) {
    Get(p, k).Some? && Get(p, k).value != ""
  }

  /** `p[k] = v` */
  function Set(p: Params, k: string, v: string): Params {
    if p == [] then [Entry(k, v)]
    else if p[0].key == k then [Entry(k, v)] + p[1..]
    else [p[0]] + Set(p[1..], k, v)
  }

  /** `p[k] = v` maps `k` to `v` and leaves every other key alone; an
      existing key keeps its position, a new key goes last. */
  lemma {:induction false} SetSpec(p: Params, k: string, v: string)
    ensures Get(Set(p, k, v), k) == Some(v)
    ensures forall k' :: k' != k ==> Get(Set(p, k, v), k') == Get(p, k')
    ensures Has(p, k) ==> |Set(p, k, v)| == |p|
    ensures !Has(p, k) ==> Set(p, k, v) == p + [Entry(k, v)]
  {
    var r := Set(p, k, v);
    if p == [] {
    } else if p[0].key == k {
      assert r[0] == Entry(k, v) && r[1..] == p[1..];
      forall k' | k' != k ensures Get(r, k') == Get(p, k') {
      }
    } else {
      var rest := Set(p[1..], k, v);
      SetSpec(p[1..], k, v);
      assert r[0] == p[0] && r[1..] == rest;
      forall k' | k' != k ensures Get(r, k') == Get(p, k') {
      }
      if Has(p, k) {
        var i :| 0 <= i < |p| && p[i].key == k;
        assert p[1..][i - 1].key == k;
      } else {
        Text.AppendAssoc([p[0]], p[1..], [Entry(k, v)]);
        Text.HeadTail(p);
      }
    }
  }

  // ---------------------------------------------------------------------
  // Key order: Python compares strings code point by code point.

  predicate Less(a: string, b: string) {
    if a == [] then b != []
    else if b == [] then false
    else if a[0] != b[0] then a[0] < b[0]
    else Less(a[1..], b[1..])
  }

  lemma {:induction false} LessIrreflexive(a: string)
    ensures !Less(a, a)
  {
    if a != [] {
      LessIrreflexive(a[1..]);
    }
  }

  lemma {:induction false} LessTransitive(a: string, b: string, c: string)
    requires Less(a, b) && Less(b, c)
    ensures Less(a, c)
  {
    if a != [] && b != [] && c != [] && a[0] == b[0] && b[0] == c[0] {
      LessTransitive(a[1..], b[1..], c[1..]);
    }
  }

  lemma {:induction false} LessTotal(a: string, b: string)
    requires a != b
    ensures Less(a, b) || Less(b, a)
  {
    if a != [] && b != [] && a[0] == b[0] {
      assert a == [a[0]] + a[1..] && b == [b[0]] + b[1..];
      LessTotal(a[1..], b[1..]);
    }
  }

  ghost predicate SortedByKey(p: Params) {
    forall i, j :: 0 <= i < j < |p| ==> Less(p[i].key, p[j].key)
  }

  /** Puts `e` in front of the first entry whose key is larger. */
  function Insert(e: Entry, s: Params): (r: Params)
    ensures multiset(r) == multiset(s) + multiset{e}
  {
    if s == [] then [e]
    else if Less(e.key, s[0].key) then [e] + s
    else
      assert s == [s[0]] + s[1..];
      [s[0]] + Insert(e, s[1..])
  }

  /** The entries sorted by key: `sorted(p.items())`, and the order in which
      `json.dumps(p, sort_keys=True)` writes them. */
  function SortByKey(p: Params): (r: Params)
    ensures multiset(r) == multiset(p)
  {
    if p == [] then []
    else
      assert p == [p[0]] + p[1..];
      Insert(p[0], SortByKey(p[1..]))
  }

  /** Every key in `s` sorts after `k`. */
  ghost predicate Above(k: string, s: Params) {
    forall x :: x in s ==> Less(k, x.key)
  }

  lemma SortedCons(x: Entry, s: Params)
    requires SortedByKey(s) && Above(x.key, s)
    ensures SortedByKey([x] + s)
  {
    var r := [x] + s;
    forall i, j | 0 <= i < j < |r| ensures Less(r[i].key, r[j].key) {
      if i == 0 {
        assert r[j] == s[j - 1];
        assert r[j] in s;
      } else {
        assert r[i] == s[i - 1] && r[j] == s[j - 1];
      }
    }
  }

  lemma AboveInsert(k: string, e: Entry, s: Params)
    requires Above(k, s) && Less(k, e.key)
    ensures Above(k, Insert(e, s))
  {
    forall x | x in Insert(e, s) ensures Less(k, x.key) {
      assert x in multiset(Insert(e, s));
      if x != e {
        assert x in multiset(s);
      }
    }
  }

  lemma {:induction false} InsertSorted(e: Entry, s: Params)
    requires SortedByKey(s)
    requires forall x :: x in s ==> x.key != e.key
    ensures SortedByKey(Insert(e, s))
  {
    if s == [] {
    } else if Less(e.key, s[0].key) {
      forall x | x in s ensures Less(e.key, x.key) {
        var k :| 0 <= k < |s| && s[k] == x;
        if k > 0 {
          LessTransitive(e.key, s[0].key, x.key);
        }
      }
      SortedCons(e, s);
    } else {
      LessTotal(e.key, s[0].key);
      assert SortedByKey(s[1..]);
      InsertSorted(e, s[1..]);
      forall x | x in s[1..] ensures Less(s[0].key, x.key) {
        var k :| 0 <= k < |s[1..]| && s[1..][k] == x;
        assert s[k + 1] == x;
      }
      AboveInsert(s[0].key, e, s[1..]);
      SortedCons(s[0], Insert(e, s[1..]));
    }
  }

  lemma {:induction false} SortByKeySorted(p: Params)
    requires DistinctKeys(p)
    ensures SortedByKey(SortByKey(p))
  {
    if p != [] {
      SortByKeySorted(p[1..]);
      forall x | x in SortByKey(p[1..]) ensures x.key != p[0].key {
        assert x in multiset(p[1..]);
        var k :| 0 <= k < |p[1..]| && p[1..][k] == x;
        assert p[k + 1] == x;
      }
      InsertSorted(p[0], SortByKey(p[1..]));
    }
  }

  lemma SortedTail(s: Params)
    requires s != [] && SortedByKey(s)
    ensures SortedByKey(s[1..])
  {
    forall i, j | 0 <= i < j < |s| - 1 ensures Less(s[1..][i].key, s[1..][j].key) {
      assert s[1..][i] == s[i + 1] && s[1..][j] == s[j + 1];
    }
  }

  /** The first entry of a key-sorted sequence sorts before every other. */
  lemma SortedHeadLeast(s: Params, x: Entry)
    requires SortedByKey(s) && x in s
    ensures x == s[0] || Less(s[0].key, x.key)
  {
    var k :| 0 <= k < |s| && s[k] == x;
  }

  /** Key-sorted sequences with the same entries start alike. */
  lemma SortedHeadsAgree(a: Params, b: Params)
    requires SortedByKey(a) && SortedByKey(b)
    requires multiset(a) == multiset(b) && a != []
    ensures b != [] && a[0] == b[0]
  {
    assert a[0] in multiset(b);
    assert b[0] in multiset(a);
    SortedHeadLeast(a, b[0]);
    SortedHeadLeast(b, a[0]);
    if a[0] != b[0] {
      LessTransitive(a[0].key, b[0].key, a[0].key);
      LessIrreflexive(a[0].key);
    }
  }

  /** Two key-sorted entry sequences with the same entries are the same sequence. */
  lemma {:induction false} SortedUnique(a: Params, b: Params)
    requires SortedByKey(a) && SortedByKey(b)
    requires multiset(a) == multiset(b)
    ensures a == b
  {
    if a == [] {
      assert |multiset(b)| == 0;
    } else {
      SortedHeadsAgree(a, b);
      assert a == [a[0]] + a[1..] && b == [b[0]] + b[1..];
      assert multiset(a[1..]) == multiset(a) - multiset{a[0]};
      assert multiset(b[1..]) == multiset(b) - multiset{b[0]};
      SortedTail(a);
      SortedTail(b);
      SortedUnique(a[1..], b[1..]);
    }
  }

  /** Sorting by key forgets insertion order: two dicts holding the same
      entries sort to the same sequence. */
  lemma SortByKeyOrderIndependent(p1: Params, p2: Params)
    requires DistinctKeys(p1) && DistinctKeys(p2)
    requires multiset(p1) == multiset(p2)
    ensures SortByKey(p1) == SortByKey(p2)
  {
    SortByKeySorted(p1);
    SortByKeySorted(p2);
    SortedUnique(SortByKey(p1), SortByKey(p2));
  }

  /** A key-sorted sequence never holds a key twice. */
  lemma SortedDistinct(s: Params)
    requires SortedByKey(s)
    ensures DistinctKeys(s)
  {
    forall i, j | 0 <= i < j < |s| ensures s[i].key != s[j].key {
      if s[i].key == s[j].key {
        LessIrreflexive(s[i].key);
      }
    }
  }

  // ---------------------------------------------------------------------
  // Query arguments: a query string may repeat a name.

  /** `p` and `q` answer every lookup alike. */
  ghost predicate SameLookups(p: Params, q: Params) {
    forall k :: Get(p, k) == Get(q, k)
  }

  /** `args.items(multi=False)`: each name once, with its first value, in
      the order names first appear. */
  function FirstPerKey(args: Params): (r: Params)
    ensures DistinctKeys(r)
  {
    if args == [] then []
    else
      var firsts := FirstPerKey(args[..|args| - 1]);
      var last := args[|args| - 1];
      if Has(firsts, last.key) then firsts else firsts + [last]
  }

  /** Looking a key up after appending an entry. */
  lemma {:induction false} GetAppend(p: Params, e: Entry, k: string)
    ensures Get(p + [e], k) == if Has(p, k) then Get(p, k) else if e.key == k then Some(e.value) else None
  {
    if p != [] {
      assert (p + [e])[0] == p[0] && (p + [e])[1..] == p[1..] + [e];
      GetAppend(p[1..], e, k);
    }
  }

  /** Keeping the first value per name answers every lookup as the full
      argument list does. */
  lemma {:induction false} FirstPerKeyGet(args: Params)
    ensures SameLookups(FirstPerKey(args), args)
  {
    if args != [] {
      var init := args[..|args| - 1];
      var last := args[|args| - 1];
      FirstPerKeyGet(init);
      assert args == init + [last];
      forall k ensures Get(FirstPerKey(args), k) == Get(args, k) {
        GetAppend(init, last, k);
        GetAppend(FirstPerKey(init), last, k);
        GetAppend(init, last, last.key);
      }
    }
  }

  /** In a dict, the lookup of `k` gives `v` exactly when the entry is present. */
  lemma {:induction false} GetDistinct(p: Params, k: string, v: string)
    requires DistinctKeys(p)
    ensures Get(p, k) == Some(v) <==> Entry(k, v) in p
  {
    if p != [] {
      if p[0].key == k {
        assert forall i :: 0 < i < |p| ==> p[i].key != p[0].key;
      } else {
        assert p == [p[0]] + p[1..];
        assert DistinctKeys(p[1..]) by {
          forall i, j | 0 <= i < j < |p[1..]| ensures p[1..][i].key != p[1..][j].key {
            assert p[1..][i] == p[i + 1] && p[1..][j] == p[j + 1];
          }
        }
        GetDistinct(p[1..], k, v);
      }
    }
  }

  /** A dict holds each entry at most once. */
  lemma {:induction false} DistinctCount(s: Params, x: Entry)
    requires DistinctKeys(s)
    ensures multiset(s)[x] == if x in s then 1 else 0
  {
    if s != [] {
      assert s == [s[0]] + s[1..];
      assert DistinctKeys(s[1..]) by {
        forall i, j | 0 <= i < j < |s[1..]| ensures s[1..][i].key != s[1..][j].key {
          assert s[1..][i] == s[i + 1] && s[1..][j] == s[j + 1];
        }
      }
      DistinctCount(s[1..], x);
      forall i | 0 <= i < |s[1..]| ensures s[1..][i] != s[0] {
        assert s[1..][i] == s[i + 1];
      }
    }
  }

  /** Two dicts that answer every lookup alike hold the same entries. */
  lemma SameGetSameEntries(p: Params, q: Params)
    requires DistinctKeys(p) && DistinctKeys(q)
    requires SameLookups(p, q)
    ensures multiset(p) == multiset(q)
  {
    forall x ensures multiset(p)[x] == multiset(q)[x] {
      DistinctCount(p, x);
      DistinctCount(q, x);
      GetDistinct(p, x.key, x.value);
      GetDistinct(q, x.key, x.value);
    }
  }

  /** Two dicts holding the same entries answer every lookup alike. */
  lemma SameEntriesSameGet(p: Params, q: Params, k: string)
    requires DistinctKeys(p) && DistinctKeys(q)
    requires multiset(p) == multiset(q)
    ensures Get(p, k) == Get(q, k)
  {
    forall v ensures Get(p, k) == Some(v) <==> Get(q, k) == Some(v) {
      GetDistinct(p, k, v);
      GetDistinct(q, k, v);
      assert Entry(k, v) in multiset(p) <==> Entry(k, v) in multiset(q);
    }
  }
}
