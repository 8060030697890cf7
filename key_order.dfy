/** Python's ordering of strings (lexicographic by code point) and the stable sort of a dict's
    items by key, with the facts needed to show that the sorted result depends only on the dict. */
module KeyOrder {

  /** `a < b` on Python strings: a is a proper prefix of b, or the first differing character of a is smaller. */
  predicate StrLt(a: string, b: string) {
    if a == [] then b != []
    else b != [] && (a[0] < b[0] || (a[0] == b[0] && StrLt(a[1..], b[1..])))
  }

  lemma {:induction false} StrLtIrreflexive(a: string)
    ensures !StrLt(a, a)
  {
    if a != [] {
      StrLtIrreflexive(a[1..]);
    }
  }

  lemma {:induction false} StrLtTransitive(a: string, b: string, c: string)
    requires StrLt(a, b) && StrLt(b, c)
    ensures StrLt(a, c)
  {
    if a != [] && a[0] == b[0] && b[0] == c[0] {
      StrLtTransitive(a[1..], b[1..], c[1..]);
    }
  }

  lemma {:induction false} StrLtAsymmetric(a: string, b: string)
    requires StrLt(a, b)
    ensures !StrLt(b, a)
  {
    if a != [] && a[0] == b[0] {
      StrLtAsymmetric(a[1..], b[1..]);
    }
  }

  /** Any two distinct strings are ordered one way or the other. */
  lemma {:induction false} StrLtTotal(a: string, b: string)
    requires a != b
    ensures StrLt(a, b) || StrLt(b, a)
  {
    if a != [] && b != [] && a[0] == b[0] {
      assert a == [a[0]] + a[1..] && b == [b[0]] + b[1..];
      StrLtTotal(a[1..], b[1..]);
    }
  }

  /** A dict item: key and the text its value formats to. */
  type Item = (string, string)

  function Keys(s: seq<Item>): (ks: set<string>)
    ensures forall i :: 0 <= i < |s| ==> s[i].0 in ks
    ensures forall k :: k in ks ==> exists i :: 0 <= i < |s| && s[i].0 == k
  {
    if s == [] then {} else {s[0].0} + Keys(s[1..])
  }

  /** The items of a dict: no key occurs twice. */
  predicate DistinctKeys(s: seq<Item>) {
    forall i, j :: 0 <= i < j < |s| ==> s[i].0 != s[j].0
  }

  /** Keys strictly increase along the sequence. */
  predicate SortedByKey(s: seq<Item>) {
    forall i, j :: 0 <= i < j < |s| ==> StrLt(s[i].0, s[j].0)
  }

  lemma {:induction false} KeysOfMultiset(s: seq<Item>, t: seq<Item>)
    requires multiset(s) == multiset(t)
    ensures Keys(s) == Keys(t)
  {
    forall k | k in Keys(s) ensures k in Keys(t) {
      var i :| 0 <= i < |s| && s[i].0 == k;
      assert s[i] in multiset(t);
    }
    forall k | k in Keys(t) ensures k in Keys(s) {
      var i :| 0 <= i < |t| && t[i].0 == k;
      assert t[i] in multiset(s);
    }
  }

  /** Every key in s is above k. */
  predicate Above(k: string, s: seq<Item>) {
    forall j :: 0 <= j < |s| ==> StrLt(k, s[j].0)
  }

  lemma {:induction false} SortedCons(s: seq<Item>)
    requires s != []
    ensures SortedByKey(s) <==> Above(s[0].0, s[1..]) && SortedByKey(s[1..])
  {
    if Above(s[0].0, s[1..]) && SortedByKey(s[1..]) {
      forall i, j | 0 <= i < j < |s| ensures StrLt(s[i].0, s[j].0) {
        assert s[j] == s[1..][j - 1];
        if i > 0 {
          assert s[i] == s[1..][i - 1];
        }
      }
    }
  }

  /** Place one item into a key-sorted sequence, before the first item with a larger key. */
  function Insert(p: Item, s: seq<Item>): (r: seq<Item>)
    ensures multiset(r) == multiset(s) + multiset{p}
    ensures Keys(r) == Keys(s) + {p.0}
  {
    if s == [] || StrLt(p.0, s[0].0) then [p] + s
    else
      assert s == [s[0]] + s[1..];
      [s[0]] + Insert(p, s[1..])
  }

  /** A bound below every item of s and below p is below every item of the insertion. */
  lemma AboveInsert(k: string, p: Item, s: seq<Item>)
    requires Above(k, s) && StrLt(k, p.0)
    ensures Above(k, Insert(p, s))
  {
    var r := Insert(p, s);
    forall j | 0 <= j < |r| ensures StrLt(k, r[j].0) {
      assert r[j] in multiset(r);
      if r[j] != p {
        assert r[j] in multiset(s);
      }
    }
  }

  lemma {:induction false} InsertSorted(p: Item, s: seq<Item>)
    requires SortedByKey(s) && p.0 !in Keys(s)
    ensures SortedByKey(Insert(p, s))
  {
    if s == [] {
    } else if StrLt(p.0, s[0].0) {
      forall j | 0 <= j < |s| ensures StrLt(p.0, s[j].0) {
        if j > 0 {
          StrLtTransitive(p.0, s[0].0, s[j].0);
        }
      }
      SortedCons([p] + s);
    } else {
      StrLtTotal(p.0, s[0].0);
      SortedCons(s);
      assert s == [s[0]] + s[1..];
      InsertSorted(p, s[1..]);
      AboveInsert(s[0].0, p, s[1..]);
      SortedCons([s[0]] + Insert(p, s[1..]));
    }
  }

  /** The tail of a dict's items is a dict's items too, and does not hold the first key. */
  lemma DistinctKeysTail(s: seq<Item>)
    requires s != [] && DistinctKeys(s)
    ensures DistinctKeys(s[1..])
    ensures s[0].0 !in Keys(s[1..])
  {
    forall i, j | 0 <= i < j < |s[1..]| ensures s[1..][i].0 != s[1..][j].0 {
      assert s[1..][i] == s[i + 1] && s[1..][j] == s[j + 1];
    }
    forall i | 0 <= i < |s[1..]| ensures s[1..][i].0 != s[0].0 {
      assert s[1..][i] == s[i + 1];
    }
  }

  /** Inserting the first item into the sorted tail sorts the whole sequence. */
  lemma InsertHead(s: seq<Item>, rest: seq<Item>)
    requires s != [] && DistinctKeys(s)
    requires SortedByKey(rest) && multiset(rest) == multiset(s[1..]) && Keys(rest) == Keys(s[1..])
    ensures SortedByKey(Insert(s[0], rest))
    ensures multiset(Insert(s[0], rest)) == multiset(s)
    ensures Keys(Insert(s[0], rest)) == Keys(s)
  {
    DistinctKeysTail(s);
    assert s == [s[0]] + s[1..];
    InsertSorted(s[0], rest);
  }

  /** `sorted(params.items(), key=lambda x: x[0])` for a dict's items. */
  function SortByKey(s: seq<Item>): (r: seq<Item>)
    requires DistinctKeys(s)
    ensures SortedByKey(r)
    ensures multiset(r) == multiset(s)
    ensures Keys(r) == Keys(s)
  {
    if s == [] then []
    else
      DistinctKeysTail(s);
      var rest := SortByKey(s[1..]);
      InsertHead(s, rest);
      Insert(s[0], rest)
  }

  lemma TailMultiset(s: seq<Item>)
    requires s != []
    ensures multiset(s[1..]) == multiset(s) - multiset{s[0]}
  {
    assert s == [s[0]] + s[1..];
  }

  /** Two non-empty key-sorted sequences holding the same items start with the same item. */
  lemma SortedSameHead(a: seq<Item>, b: seq<Item>)
    requires SortedByKey(a) && SortedByKey(b)
    requires multiset(a) == multiset(b) && a != [] && b != []
    ensures a[0] == b[0]
  {
    assert a[0] in multiset(b) && b[0] in multiset(a);
    if a[0] != b[0] {
      var i :| 0 <= i < |a| && a[i] == b[0];
      var j :| 0 <= j < |b| && b[j] == a[0];
      StrLtAsymmetric(a[0].0, b[0].0);
      assert false;
    }
  }

  /** Two key-sorted sequences holding the same items are equal. */
  lemma {:induction false} SortedUnique(a: seq<Item>, b: seq<Item>)
    requires SortedByKey(a) && SortedByKey(b)
    requires multiset(a) == multiset(b)
    ensures a == b
  {
    if a != [] {
      assert |b| == |multiset(b)| == |a|;
      SortedSameHead(a, b);
      TailMultiset(a);
      TailMultiset(b);
      SortedCons(a);
      SortedCons(b);
      SortedUnique(a[1..], b[1..]);
      assert a == [a[0]] + a[1..] && b == [b[0]] + b[1..];
    }
  }

  /** The sort's result is the only key-sorted arrangement of the items. */
  lemma SortedIsSortByKey(s: seq<Item>)
    requires DistinctKeys(s)
    ensures forall t :: SortedByKey(t) && multiset(t) == multiset(s) ==> t == SortByKey(s)
  {
    forall t | SortedByKey(t) && multiset(t) == multiset(s)
      ensures t == SortByKey(s)
    {
      SortedUnique(t, SortByKey(s));
    }
  }

  /** The sorted items depend only on the dict, not on the order its items were inserted in. */
  lemma SortIndependentOfOrder(s: seq<Item>, t: seq<Item>)
    requires DistinctKeys(s) && DistinctKeys(t)
    requires multiset(s) == multiset(t)
    ensures SortByKey(s) == SortByKey(t)
  {
    SortedUnique(SortByKey(s), SortByKey(t));
  }
}
