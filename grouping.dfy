/**
 * The "reduce into a dictionary, then list its entries" pattern of the report
 * screen, and the stable sort it applies to the entry lists. A dictionary is
 * kept as its entry list in insertion order, which is the order in which
 * `Object.entries` lists string keys that are not array indices.
 */
module Grouping {

  /** One `[key, amount]` pair of a dictionary, or one contribution to it. */
  datatype Entry = Entry(key: string, amount: int)

  function Keys(es: seq<Entry>): (r: seq<string>)
    ensures |r| == |es|
    ensures forall i :: 0 <= i < |es| ==> r[i] == es[i].key
  {
    if es == [] then [] else [es[0].key] + Keys(es[1..])
  }

  /** Each key appears at most once. */
  predicate DistinctKeys(es: seq<Entry>)
  {
    forall i, j :: 0 <= i < j < |es| ==> es[i].key != es[j].key
  }

  /** The sum of all amounts. */
  function Total(es: seq<Entry>): int
  {
    if es == [] then 0 else es[0].amount + Total(es[1..])
  }

  /** The sum of the amounts under one key. */
  function KeyTotal(es: seq<Entry>, k: string): int
  {
    if es == [] then 0 else (if es[0].key == k then es[0].amount else 0) + KeyTotal(es[1..], k)
  }

  /** With distinct keys, an entry's amount is everything the list holds under its key. */
  lemma {:induction false} KeyTotalOfDistinct(es: seq<Entry>, i: nat)
    requires DistinctKeys(es)
    requires i < |es|
    ensures KeyTotal(es, es[i].key) == es[i].amount
  {
    if i == 0 {
      KeyTotalMissing(es[1..], es[0].key);
    } else {
      KeyTotalOfDistinct(es[1..], i - 1);
    }
  }

  /** A key that is not in the list has nothing under it. */
  lemma {:induction false} KeyTotalMissing(es: seq<Entry>, k: string)
    requires k !in Keys(es)
    ensures KeyTotal(es, k) == 0
  {
    if es != [] {
      assert Keys(es)[0] == es[0].key;
      assert Keys(es[1..]) == Keys(es)[1..];
      KeyTotalMissing(es[1..], k);
    }
  }

  /** Totals over two lists add up. */
  lemma {:induction false} TotalConcat(a: seq<Entry>, b: seq<Entry>)
    ensures Total(a + b) == Total(a) + Total(b)
  {
    if a != [] {
      assert (a + b)[1..] == a[1..] + b;
      TotalConcat(a[1..], b);
    } else {
      assert a + b == b;
    }
  }

  /** Key totals over two lists add up. */
  lemma {:induction false} KeyTotalConcat(a: seq<Entry>, b: seq<Entry>, k: string)
    ensures KeyTotal(a + b, k) == KeyTotal(a, k) + KeyTotal(b, k)
  {
    if a != [] {
      assert (a + b)[1..] == a[1..] + b;
      KeyTotalConcat(a[1..], b, k);
    } else {
      assert a + b == b;
    }
  }

  /**
   * `acc[key] = (acc[key] || 0) + amount`: a key already there keeps its place and gets
   * the amount added; a new key is added at the end with the amount.
   */
  function Accumulate(acc: seq<Entry>, key: string, amount: int): (r: seq<Entry>)
    ensures key in Keys(acc) ==> Keys(r) == Keys(acc)
    ensures key !in Keys(acc) ==> Keys(r) == Keys(acc) + [key]
    ensures Total(r) == Total(acc) + amount
    ensures forall k :: KeyTotal(r, k) == KeyTotal(acc, k) + (if k == key then amount else 0)
  {
    if acc == [] then
      assert Total([Entry(key, amount)]) == amount + Total([]);
      [Entry(key, amount)]
    else if acc[0].key == key then
      var r := [acc[0].(amount := acc[0].amount + amount)] + acc[1..];
      assert r[1..] == acc[1..];
      assert Keys(r) == Keys(acc) by {
        assert Keys(r)[0] == Keys(acc)[0];
      }
      r
    else
      var rest := Accumulate(acc[1..], key, amount);
      var r := [acc[0]] + rest;
      assert r[1..] == rest;
      assert Keys(acc) == [acc[0].key] + Keys(acc[1..]);
      assert Keys(r) == [acc[0].key] + Keys(rest);
      r
  }

  /** `pairs.reduce((acc, p) => { acc[p.key] = (acc[p.key] || 0) + p.amount; return acc }, acc)`. */
  function GroupFrom(acc: seq<Entry>, pairs: seq<Entry>): (r: seq<Entry>)
    ensures DistinctKeys(acc) ==> DistinctKeys(r)
    ensures forall k :: k in Keys(r) <==> k in Keys(acc) || k in Keys(pairs)
    ensures Total(r) == Total(acc) + Total(pairs)
    ensures forall k :: KeyTotal(r, k) == KeyTotal(acc, k) + KeyTotal(pairs, k)
    decreases |pairs|
  {
    if pairs == [] then
      acc
    else
      var next := Accumulate(acc, pairs[0].key, pairs[0].amount);
      assert DistinctKeys(acc) ==> DistinctKeys(next) by {
        if DistinctKeys(acc) && pairs[0].key !in Keys(acc) {
          forall i | 0 <= i < |acc| ensures next[i].key != pairs[0].key {
            assert Keys(acc)[i] == acc[i].key;
          }
          assert Keys(next)[|acc|] == pairs[0].key;
        }
      }
      assert Keys(pairs) == [pairs[0].key] + Keys(pairs[1..]);
      GroupFrom(next, pairs[1..])
  }

  /** The dictionary built from an empty one: one entry per key, each holding its key's sum, the same grand total. */
  function Group(pairs: seq<Entry>): (r: seq<Entry>)
    ensures DistinctKeys(r)
    ensures forall k :: k in Keys(r) <==> k in Keys(pairs)
    ensures Total(r) == Total(pairs)
    ensures forall e :: e in r ==> e.amount == KeyTotal(pairs, e.key)
  {
    var r := GroupFrom([], pairs);
    forall e | e in r ensures e.amount == KeyTotal(pairs, e.key) {
      var i :| 0 <= i < |r| && r[i] == e;
      KeyTotalOfDistinct(r, i);
    }
    r
  }

  /** `a.localeCompare(b) <= 0`, taken as the character-by-character order. */
  predicate KeyLeq(a: string, b: string)
    decreases |a|
  {
    a == [] || (b != [] && (a[0] < b[0] || (a[0] == b[0] && KeyLeq(a[1..], b[1..]))))
  }

  lemma {:induction false} KeyLeqTotal(a: string, b: string)
    ensures KeyLeq(a, b) || KeyLeq(b, a)
    decreases |a|
  {
    if a != [] && b != [] && a[0] == b[0] {
      KeyLeqTotal(a[1..], b[1..]);
    }
  }

  lemma {:induction false} KeyLeqTransitive(a: string, b: string, c: string)
    requires KeyLeq(a, b) && KeyLeq(b, c)
    ensures KeyLeq(a, c)
    decreases |a|
  {
    if a != [] && a[0] == b[0] && b[0] == c[0] {
      KeyLeqTransitive(a[1..], b[1..], c[1..]);
    }
  }

  /** Two keys in order both ways are the same key. */
  lemma {:induction false} KeyLeqAntisymmetric(a: string, b: string)
    requires KeyLeq(a, b) && KeyLeq(b, a)
    ensures a == b
    decreases |a|
  {
    if a != [] {
      KeyLeqAntisymmetric(a[1..], b[1..]);
      assert a == [a[0]] + a[1..] && b == [b[0]] + b[1..];
    }
  }

  /** An order a comparison sort can use: any two entries compare, and the order is transitive. */
  ghost predicate TotalPreorder(leq: (Entry, Entry) -> bool)
  {
    (forall a, b :: leq(a, b) || leq(b, a)) &&
    (forall a, b, c :: leq(a, b) && leq(b, c) ==> leq(a, c))
  }

  /** `(a, b) => a.key.localeCompare(b.key)`: ascending by key. */
  predicate ByKey(a: Entry, b: Entry)
  {
    KeyLeq(a.key, b.key)
  }

  /** `(a, b) => b.amount - a.amount`: descending by amount. */
  predicate ByAmountDesc(a: Entry, b: Entry)
  {
    a.amount >= b.amount
  }

  lemma OrdersArePreorders()
    ensures TotalPreorder(ByKey)
    ensures TotalPreorder(ByAmountDesc)
  {
    forall a: Entry, b: Entry ensures ByKey(a, b) || ByKey(b, a) {
      KeyLeqTotal(a.key, b.key);
    }
    forall a: Entry, b: Entry, c: Entry | ByKey(a, b) && ByKey(b, c) ensures ByKey(a, c) {
      KeyLeqTransitive(a.key, b.key, c.key);
    }
  }

  predicate Sorted(s: seq<Entry>, leq: (Entry, Entry) -> bool)
  {
    forall i, j :: 0 <= i < j < |s| ==> leq(s[i], s[j])
  }

  /**
   * One insertion step: `x` goes before the first element it does not follow, so it
   * lands ahead of the elements it ties with (see InsertTies).
   */
  function Insert(x: Entry, s: seq<Entry>, leq: (Entry, Entry) -> bool): (r: seq<Entry>)
    ensures |r| == |s| + 1
    ensures multiset(r) == multiset(s) + multiset{x}
    ensures forall e :: e in r <==> e in s || e == x
    ensures forall k :: k in Keys(r) <==> k in Keys(s) || k == x.key
    ensures Total(r) == Total(s) + x.amount
    ensures forall k :: KeyTotal(r, k) == KeyTotal(s, k) + (if x.key == k then x.amount else 0)
  {
    if s == [] || leq(x, s[0]) then
      var r := [x] + s;
      assert r[1..] == s;
      assert Keys(r) == [x.key] + Keys(s);
      r
    else
      var rest := Insert(x, s[1..], leq);
      var r := [s[0]] + rest;
      assert r[1..] == rest;
      assert s == [s[0]] + s[1..];
      assert Keys(r) == [s[0].key] + Keys(rest);
      assert Keys(s) == [s[0].key] + Keys(s[1..]);
      r
  }

  lemma {:induction false} InsertSorted(x: Entry, s: seq<Entry>, leq: (Entry, Entry) -> bool)
    requires TotalPreorder(leq)
    requires Sorted(s, leq)
    ensures Sorted(Insert(x, s, leq), leq)
  {
    if s != [] && !leq(x, s[0]) {
      InsertSorted(x, s[1..], leq);
      var r := Insert(x, s, leq);
      forall j | 0 < j < |r| ensures leq(r[0], r[j]) {
        assert r[j] in multiset(Insert(x, s[1..], leq));
        assert r[j] in multiset(s[1..]) + multiset{x};
        if r[j] != x {
          var m :| 0 <= m < |s[1..]| && s[1..][m] == r[j];
          assert s[m + 1] == r[j];
        }
      }
    }
  }

  /** A list has distinct keys when its tail has and its head's key is not in the tail. */
  lemma DistinctKeysCons(s: seq<Entry>)
    requires s != []
    ensures DistinctKeys(s) <==> DistinctKeys(s[1..]) && s[0].key !in Keys(s[1..])
  {
    if DistinctKeys(s[1..]) && s[0].key !in Keys(s[1..]) {
      forall i, j | 0 <= i < j < |s| ensures s[i].key != s[j].key {
        if i == 0 {
          assert Keys(s[1..])[j - 1] == s[j].key;
        } else {
          assert s[1..][i - 1] == s[i] && s[1..][j - 1] == s[j];
        }
      }
    }
  }

  lemma {:induction false} InsertKeepsDistinct(x: Entry, s: seq<Entry>, leq: (Entry, Entry) -> bool)
    requires DistinctKeys(s)
    requires x.key !in Keys(s)
    ensures DistinctKeys(Insert(x, s, leq))
  {
    var r := Insert(x, s, leq);
    if s == [] || leq(x, s[0]) {
      assert r[1..] == s;
      DistinctKeysCons(r);
    } else {
      assert Keys(s) == [s[0].key] + Keys(s[1..]);
      DistinctKeysCons(s);
      InsertKeepsDistinct(x, s[1..], leq);
      assert r[1..] == Insert(x, s[1..], leq);
      DistinctKeysCons(r);
    }
  }

  /** `.sort(compare)`: a sort of the entries; SortIsStable shows it is stable. */
  function Sort(s: seq<Entry>, leq: (Entry, Entry) -> bool): (r: seq<Entry>)
    ensures |r| == |s|
    ensures multiset(r) == multiset(s)
    ensures forall e :: e in r <==> e in s
    ensures forall k :: k in Keys(r) <==> k in Keys(s)
    ensures Total(r) == Total(s)
    ensures forall k :: KeyTotal(r, k) == KeyTotal(s, k)
  {
    if s == [] then []
    else
      assert s == [s[0]] + s[1..];
      assert Keys(s) == [s[0].key] + Keys(s[1..]);
      Insert(s[0], Sort(s[1..], leq), leq)
  }

  /** Sorting by a total preorder gives a sorted list, and keeps keys distinct. */
  lemma {:induction false} SortIsSorted(s: seq<Entry>, leq: (Entry, Entry) -> bool)
    requires TotalPreorder(leq)
    ensures Sorted(Sort(s, leq), leq)
    ensures DistinctKeys(s) ==> DistinctKeys(Sort(s, leq))
  {
    if s != [] {
      SortIsSorted(s[1..], leq);
      InsertSorted(s[0], Sort(s[1..], leq), leq);
      if DistinctKeys(s) {
        assert Keys(s) == [s[0].key] + Keys(s[1..]);
        assert s[0].key !in Keys(s[1..]);
        InsertKeepsDistinct(s[0], Sort(s[1..], leq), leq);
      }
    }
  }

  /** Two entries the comparator puts in either order: `compare(a, b) == 0`. */
  predicate Tied(a: Entry, b: Entry, leq: (Entry, Entry) -> bool)
  {
    leq(a, b) && leq(b, a)
  }

  /** The entries of `s` that tie with `y`, in their order in `s`. */
  function Ties(s: seq<Entry>, y: Entry, leq: (Entry, Entry) -> bool): (r: seq<Entry>)
    ensures forall e :: e in r <==> e in s && Tied(e, y, leq)
  {
    if s == [] then [] else (if Tied(s[0], y, leq) then [s[0]] else []) + Ties(s[1..], y, leq)
  }

  /**
   * Inserting `x` puts it ahead of every entry it ties with and moves nothing else
   * past it, whether or not the list is sorted.
   */
  lemma {:induction false} InsertTies(x: Entry, s: seq<Entry>, leq: (Entry, Entry) -> bool, y: Entry)
    requires TotalPreorder(leq)
    ensures Ties(Insert(x, s, leq), y, leq) == (if Tied(x, y, leq) then [x] else []) + Ties(s, y, leq)
  {
    var r := Insert(x, s, leq);
    if s == [] || leq(x, s[0]) {
      assert r[0] == x && r[1..] == s;
    } else {
      InsertTies(x, s[1..], leq, y);
      assert r[0] == s[0] && r[1..] == Insert(x, s[1..], leq);
      if Tied(x, y, leq) {
        // s[0] tied with y would give leq(x, y) and leq(y, s[0]), so leq(x, s[0]).
        assert !Tied(s[0], y, leq);
      }
    }
  }

  /**
   * The sort is stable: the entries that tie with any given entry come out in the
   * order they went in.
   */
  lemma {:induction false} SortIsStable(s: seq<Entry>, leq: (Entry, Entry) -> bool, y: Entry)
    requires TotalPreorder(leq)
    ensures Ties(Sort(s, leq), y, leq) == Ties(s, y, leq)
  {
    if s != [] {
      SortIsStable(s[1..], leq, y);
      InsertTies(s[0], Sort(s[1..], leq), leq, y);
    }
  }
}
