/**
 * The category maps of the analytics: a Python dict from category name to amount, kept as an
 * association list in insertion order (a new key goes to the end, an existing key keeps its place),
 * and `sorted(items, key=amount, reverse=True)` over it.
 */
module Categories {
  import opened Sums

  datatype CategoryAmount = CategoryAmount(name: string, amount: real)

  predicate HasKey(m: seq<CategoryAmount>, k: string) {
    exists i :: 0 <= i < |m| && m[i].name == k
  }

  predicate DistinctKeys(m: seq<CategoryAmount>) {
    forall i, j :: 0 <= i < j < |m| ==> m[i].name != m[j].name
  }

  /** `m.get(k, 0)`. */
  function Get(m: seq<CategoryAmount>, k: string): real {
    if m == [] then 0.0 else if m[0].name == k then m[0].amount else Get(m[1..], k)
  }

  /** The sum of all amounts in the map. */
  function Total(m: seq<CategoryAmount>): real {
    if m == [] then 0.0 else m[0].amount + Total(m[1..])
  }

  lemma {:induction false} HasKeyTail(m: seq<CategoryAmount>, k: string)
    requires m != []
    ensures HasKey(m, k) <==> m[0].name == k || HasKey(m[1..], k)
  {
    if HasKey(m[1..], k) {
      var i :| 0 <= i < |m[1..]| && m[1..][i].name == k;
      assert m[i + 1].name == k;
    }
    if HasKey(m, k) && m[0].name != k {
      var i :| 0 <= i < |m| && m[i].name == k;
      assert m[1..][i - 1].name == k;
    }
  }

  lemma DistinctTail(m: seq<CategoryAmount>)
    requires m != [] && DistinctKeys(m)
    ensures DistinctKeys(m[1..]) && !HasKey(m[1..], m[0].name)
  {
    forall i, j | 0 <= i < j < |m[1..]| ensures m[1..][i].name != m[1..][j].name {
      assert m[1..][i] == m[i + 1] && m[1..][j] == m[j + 1];
    }
    forall i | 0 <= i < |m[1..]| ensures m[1..][i].name != m[0].name {
      assert m[1..][i] == m[i + 1];
    }
  }

  lemma DistinctCons(x: CategoryAmount, m: seq<CategoryAmount>)
    requires DistinctKeys(m) && !HasKey(m, x.name)
    ensures DistinctKeys([x] + m)
  {
    var r := [x] + m;
    forall i, j | 0 <= i < j < |r| ensures r[i].name != r[j].name {
      assert r[j] == m[j - 1];
      if i > 0 {
        assert r[i] == m[i - 1];
      }
    }
  }

  /** `m[k] = m.get(k, 0) + v`: an existing key keeps its place, a new key goes to the end. */
  function AddTo(m: seq<CategoryAmount>, k: string, v: real): (r: seq<CategoryAmount>)
    ensures Total(r) == Total(m) + v
  {
    if m == [] then [CategoryAmount(k, v)]
    else if m[0].name == k then [m[0].(amount := m[0].amount + v)] + m[1..]
    else [m[0]] + AddTo(m[1..], k, v)
  }

  /** Adding to a key makes it present and grows its amount by v; every other key and amount stays. */
  lemma {:induction false} AddToMeaning(m: seq<CategoryAmount>, k: string, v: real)
    requires DistinctKeys(m)
    ensures var r := AddTo(m, k, v);
      DistinctKeys(r)
      && (forall x :: HasKey(r, x) <==> HasKey(m, x) || x == k)
      && (forall x :: Get(r, x) == Get(m, x) + (if x == k then v else 0.0))
  {
    var r := AddTo(m, k, v);
    if m == [] {
      assert r[0].name == k;
      forall x ensures HasKey(r, x) <==> x == k {
        HasKeyTail(r, x);
      }
    } else {
      DistinctTail(m);
      assert r[1..] == (if m[0].name == k then m[1..] else AddTo(m[1..], k, v));
      if m[0].name != k {
        AddToMeaning(m[1..], k, v);
        DistinctCons(m[0], r[1..]);
      } else {
        DistinctCons(r[0], m[1..]);
        AbsentGetsZero(m[1..], k);
      }
      forall x ensures HasKey(r, x) <==> HasKey(m, x) || x == k {
        HasKeyTail(m, x);
        HasKeyTail(r, x);
      }
    }
  }

  /** `m[k] = v`: an existing key keeps its place, a new key goes to the end. */
  function Put(m: seq<CategoryAmount>, k: string, v: real): (r: seq<CategoryAmount>)
    ensures |r| == if HasKey(m, k) then |m| else |m| + 1
  {
    if m == [] then [CategoryAmount(k, v)]
    else if m[0].name == k then
      HasKeyTail(m, k);
      [CategoryAmount(k, v)] + m[1..]
    else
      HasKeyTail(m, k);
      [m[0]] + Put(m[1..], k, v)
  }

  /** Putting a key makes its amount v; every other key and amount stays, and the total changes accordingly. */
  lemma {:induction false} PutMeaning(m: seq<CategoryAmount>, k: string, v: real)
    requires DistinctKeys(m)
    ensures var r := Put(m, k, v);
      DistinctKeys(r)
      && (forall x :: HasKey(r, x) <==> HasKey(m, x) || x == k)
      && (forall x :: Get(r, x) == if x == k then v else Get(m, x))
      && Total(r) == Total(m) - Get(m, k) + v
  {
    var r := Put(m, k, v);
    if m == [] {
      assert r[0].name == k;
      forall x ensures HasKey(r, x) <==> x == k {
        HasKeyTail(r, x);
      }
    } else {
      DistinctTail(m);
      assert r[1..] == (if m[0].name == k then m[1..] else Put(m[1..], k, v));
      if m[0].name != k {
        PutMeaning(m[1..], k, v);
        DistinctCons(m[0], r[1..]);
      } else {
        DistinctCons(r[0], m[1..]);
        AbsentGetsZero(m[1..], k);
      }
      forall x ensures HasKey(r, x) <==> HasKey(m, x) || x == k {
        HasKeyTail(m, x);
        HasKeyTail(r, x);
      }
    }
  }

  lemma {:induction false} AbsentGetsZero(m: seq<CategoryAmount>, k: string)
    requires !HasKey(m, k)
    ensures Get(m, k) == 0.0
  {
    if m != [] {
      HasKeyTail(m, k);
      AbsentGetsZero(m[1..], k);
    }
  }

  // ----- Descending sort -----

  predicate SortedDesc(s: seq<CategoryAmount>) {
    forall i, j :: 0 <= i < j < |s| ==> s[i].amount >= s[j].amount
  }

  /** Insert x after every element whose amount is at least x's, so equal amounts keep their arrival order. */
  function InsertDesc(x: CategoryAmount, s: seq<CategoryAmount>): (r: seq<CategoryAmount>)
    requires SortedDesc(s)
    ensures SortedDesc(r)
    ensures multiset(r) == multiset(s) + multiset{x}
    ensures |r| == |s| + 1
    ensures r[0] == x || (s != [] && r[0] == s[0])
  {
    if s == [] then [x]
    else if s[0].amount >= x.amount then
      SortedTail(s);
      var rest := InsertDesc(x, s[1..]);
      assert s == [s[0]] + s[1..];
      SortedCons(s[0], rest);
      [s[0]] + rest
    else
      SortedCons(x, s);
      [x] + s
  }

  lemma SortedTail(s: seq<CategoryAmount>)
    requires SortedDesc(s) && s != []
    ensures SortedDesc(s[1..])
  {
    forall i, j | 0 <= i < j < |s[1..]| ensures s[1..][i].amount >= s[1..][j].amount {
      assert s[1..][i] == s[i + 1] && s[1..][j] == s[j + 1];
    }
  }

  /** A sorted sequence stays sorted under a new head that is at least its old head. */
  lemma SortedCons(y: CategoryAmount, t: seq<CategoryAmount>)
    requires SortedDesc(t) && (t != [] ==> y.amount >= t[0].amount)
    ensures SortedDesc([y] + t)
  {
    var r := [y] + t;
    forall i, j | 0 <= i < j < |r| ensures r[i].amount >= r[j].amount {
      if i == 0 {
        assert t[0].amount >= t[j - 1].amount || j == 1;
      } else {
        assert r[i] == t[i - 1] && r[j] == t[j - 1];
      }
    }
  }

  /** `sorted(m.items(), key=amount, reverse=True)`: the same entries, amounts non-increasing. */
  function SortDesc(m: seq<CategoryAmount>): (r: seq<CategoryAmount>)
    ensures SortedDesc(r)
    ensures multiset(r) == multiset(m)
    ensures |r| == |m|
  {
    if m == [] then []
    else
      var init, last := m[..|m| - 1], m[|m| - 1];
      assert m == init + [last];
      assert multiset(m) == multiset(init) + multiset{last};
      InsertDesc(last, SortDesc(init))
  }

  /** Sorting keeps the keys. */
  lemma SortKeepsKeys(m: seq<CategoryAmount>, k: string)
    ensures HasKey(SortDesc(m), k) <==> HasKey(m, k)
  {
    var r := SortDesc(m);
    if HasKey(m, k) {
      var i :| 0 <= i < |m| && m[i].name == k;
      assert m[i] in multiset(r);
    }
    if HasKey(r, k) {
      var i :| 0 <= i < |r| && r[i].name == k;
      assert r[i] in multiset(m);
    }
  }

  /** Inserting an entry whose key is new into a list with distinct keys keeps the keys distinct. */
  lemma {:induction false} InsertKeepsDistinct(x: CategoryAmount, s: seq<CategoryAmount>)
    requires SortedDesc(s) && DistinctKeys(s) && !HasKey(s, x.name)
    ensures DistinctKeys(InsertDesc(x, s))
  {
    if s == [] {
    } else if s[0].amount >= x.amount {
      SortedTail(s);
      DistinctTail(s);
      HasKeyTail(s, x.name);
      InsertKeepsDistinct(x, s[1..]);
      var rest := InsertDesc(x, s[1..]);
      InsertKeys(x, s[1..], s[0].name);
      HasKeyTail(s, s[0].name);
      DistinctCons(s[0], rest);
    } else {
      DistinctCons(x, s);
    }
  }

  /** Inserting an entry adds exactly its key. */
  lemma InsertKeys(x: CategoryAmount, s: seq<CategoryAmount>, k: string)
    requires SortedDesc(s)
    ensures HasKey(InsertDesc(x, s), k) <==> HasKey(s, k) || x.name == k
  {
    var r := InsertDesc(x, s);
    if HasKey(r, k) {
      var i :| 0 <= i < |r| && r[i].name == k;
      assert r[i] in multiset(s) + multiset{x};
      if r[i] != x {
        assert r[i] in s;
      }
    }
    if HasKey(s, k) {
      var i :| 0 <= i < |s| && s[i].name == k;
      assert s[i] in multiset(r);
    }
    if x.name == k {
      assert x in multiset(r);
    }
  }

  /** Sorting a map with distinct keys keeps them distinct. */
  lemma {:induction false} SortKeepsDistinct(m: seq<CategoryAmount>)
    requires DistinctKeys(m)
    ensures DistinctKeys(SortDesc(m))
  {
    if m != [] {
      var init, last := m[..|m| - 1], m[|m| - 1];
      assert DistinctKeys(init) by {
        forall i, j | 0 <= i < j < |init| ensures init[i].name != init[j].name {
          assert init[i] == m[i] && init[j] == m[j];
        }
      }
      SortKeepsDistinct(init);
      SortKeepsKeys(init, last.name);
      assert !HasKey(init, last.name) by {
        forall i | 0 <= i < |init| ensures init[i].name != last.name {
          assert init[i] == m[i];
        }
      }
      InsertKeepsDistinct(last, SortDesc(init));
    }
  }

  /** The amount an entry contributes to key k's total. */
  function Only(k: string): CategoryAmount -> real {
    (c: CategoryAmount) => if c.name == k then c.amount else 0.0
  }

  /** With distinct keys, `m.get(k, 0)` is the total of the entries named k. */
  lemma {:induction false} GetIsSumOfOnly(m: seq<CategoryAmount>, k: string)
    requires DistinctKeys(m)
    ensures Get(m, k) == Sum(m, Only(k))
  {
    if m != [] {
      DistinctTail(m);
      GetIsSumOfOnly(m[1..], k);
      SumCons(m[0], m[1..], Only(k));
      assert [m[0]] + m[1..] == m;
      if m[0].name == k {
        AbsentGetsZero(m[1..], k);
      }
    }
  }

  /** Sorting a map with distinct keys keeps every key's amount. */
  lemma SortKeepsAmounts(m: seq<CategoryAmount>, k: string)
    requires DistinctKeys(m)
    ensures Get(SortDesc(m), k) == Get(m, k)
  {
    SortKeepsDistinct(m);
    GetIsSumOfOnly(m, k);
    GetIsSumOfOnly(SortDesc(m), k);
    SumPermutation(m, SortDesc(m), Only(k));
  }

  /** The entries with amount a, in list order. */
  function WithAmount(m: seq<CategoryAmount>, a: real): seq<CategoryAmount> {
    if m == [] then [] else (if m[0].amount == a then [m[0]] else []) + WithAmount(m[1..], a)
  }

  lemma {:induction false} WithAmountAppend(p: seq<CategoryAmount>, q: seq<CategoryAmount>, a: real)
    ensures WithAmount(p + q, a) == WithAmount(p, a) + WithAmount(q, a)
  {
    if p != [] {
      assert (p + q)[1..] == p[1..] + q;
      WithAmountAppend(p[1..], q, a);
    } else {
      assert p + q == q;
    }
  }

  lemma {:induction false} NoneWithAmount(s: seq<CategoryAmount>, a: real)
    requires forall i :: 0 <= i < |s| ==> s[i].amount < a
    ensures WithAmount(s, a) == []
  {
    if s != [] {
      assert forall i :: 0 <= i < |s[1..]| ==> s[1..][i] == s[i + 1];
      NoneWithAmount(s[1..], a);
    }
  }

  /** An inserted entry goes after every entry of equal amount: insertion is stable. */
  lemma {:induction false} InsertIsStable(x: CategoryAmount, s: seq<CategoryAmount>, a: real)
    requires SortedDesc(s)
    ensures WithAmount(InsertDesc(x, s), a) == WithAmount(s, a) + (if x.amount == a then [x] else [])
  {
    if s == [] {
    } else if s[0].amount >= x.amount {
      SortedTail(s);
      InsertIsStable(x, s[1..], a);
      WithAmountCons(s[0], InsertDesc(x, s[1..]), a);
    } else {
      WithAmountCons(x, s, a);
      if x.amount == a {
        NoneWithAmount(s, a);
      }
    }
  }

  lemma WithAmountCons(y: CategoryAmount, rest: seq<CategoryAmount>, a: real)
    ensures WithAmount([y] + rest, a) == (if y.amount == a then [y] else []) + WithAmount(rest, a)
  {
    assert ([y] + rest)[1..] == rest;
  }

  /** `sorted` is stable: entries with equal amounts keep their input order. */
  lemma {:induction false} SortIsStable(m: seq<CategoryAmount>, a: real)
    ensures WithAmount(SortDesc(m), a) == WithAmount(m, a)
  {
    if m != [] {
      SortIsStable(m[..|m| - 1], a);
      StableStep(m, SortDesc(m[..|m| - 1]), a);
    }
  }

  /** One step of the sort: inserting the last entry into the sorted prefix keeps each amount's order. */
  lemma StableStep(m: seq<CategoryAmount>, sorted: seq<CategoryAmount>, a: real)
    requires m != [] && SortedDesc(sorted) && WithAmount(sorted, a) == WithAmount(m[..|m| - 1], a)
    ensures WithAmount(InsertDesc(m[|m| - 1], sorted), a) == WithAmount(m, a)
  {
    InsertIsStable(m[|m| - 1], sorted, a);
    WithAmountSnoc(m, a);
  }

  /** The entries of `m` with amount `a` are those of its prefix, then its last entry if that has amount `a`. */
  lemma WithAmountSnoc(m: seq<CategoryAmount>, a: real)
    requires m != []
    ensures WithAmount(m, a) == WithAmount(m[..|m| - 1], a) + (if m[|m| - 1].amount == a then [m[|m| - 1]] else [])
  {
    var init, last := m[..|m| - 1], m[|m| - 1];
    assert m == init + [last];
    WithAmountAppend(init, [last], a);
    WithAmountSingle(last, a);
  }

  lemma WithAmountSingle(x: CategoryAmount, a: real)
    ensures WithAmount([x], a) == if x.amount == a then [x] else []
  {
    assert [x][1..] == [];
  }


  /** Sorting keeps the total. */
  lemma {:induction false} SortKeepsTotal(m: seq<CategoryAmount>)
    ensures Total(SortDesc(m)) == Total(m)
  {
    PermutationKeepsTotal(m, SortDesc(m));
  }

  lemma PermutationKeepsTotal(a: seq<CategoryAmount>, b: seq<CategoryAmount>)
    requires multiset(a) == multiset(b)
    ensures Total(a) == Total(b)
  {
    TotalIsSum(a);
    TotalIsSum(b);
    SumPermutation(a, b, AmountOf);
  }

  function AmountOf(c: CategoryAmount): real { c.amount }

  /** Totalling from the front is summing the amounts. */
  lemma {:induction false} TotalIsSum(m: seq<CategoryAmount>)
    ensures Total(m) == Sum(m, AmountOf)
  {
    if m != [] {
      TotalIsSum(m[1..]);
      SumCons(m[0], m[1..], AmountOf);
      assert [m[0]] + m[1..] == m;
    }
  }

  /** The amount an entry contributes to a total that leaves out key k. */
  function Except(k: string): CategoryAmount -> real {
    (c: CategoryAmount) => if c.name != k then c.amount else 0.0
  }

  /** `sum(cat["amount"] for cat in m if cat["name"] != k)`. */
  function TotalExcept(m: seq<CategoryAmount>, k: string): real {
    Sum(m, Except(k))
  }

  /** With distinct keys, leaving out k takes exactly k's amount off the total. */
  lemma {:induction false} TotalExceptMeaning(m: seq<CategoryAmount>, k: string)
    requires DistinctKeys(m)
    ensures TotalExcept(m, k) == Total(m) - Get(m, k)
  {
    if m != [] {
      DistinctTail(m);
      TotalExceptMeaning(m[1..], k);
      SumCons(m[0], m[1..], Except(k));
      assert [m[0]] + m[1..] == m;
      if m[0].name == k {
        AbsentGetsZero(m[1..], k);
      }
    }
  }

  /** Putting key k does not change the total without k. */
  lemma PutKeepsTotalExcept(m: seq<CategoryAmount>, k: string, v: real)
    requires DistinctKeys(m)
    ensures TotalExcept(Put(m, k, v), k) == TotalExcept(m, k)
  {
    PutMeaning(m, k, v);
    TotalExceptMeaning(m, k);
    TotalExceptMeaning(Put(m, k, v), k);
  }

  lemma PermutationKeepsTotalExcept(a: seq<CategoryAmount>, b: seq<CategoryAmount>, k: string)
    requires multiset(a) == multiset(b)
    ensures TotalExcept(a, k) == TotalExcept(b, k)
  {
    SumPermutation(a, b, Except(k));
  }
}
