/**
 * Collections of records identified by an integer id: the three list operations every
 * client cache applies (`map(x => x.id === id ? y : x)`, `filter(x => x.id !== id)`,
 * `find(x => x.id === id)`) and the keyed-table view of the backend store.
 * `key` extracts the id of a record.
 */
module Records {
  import opened Wrappers

  predicate HasId<T>(xs: seq<T>, key: T -> int, id: int) {
    exists i :: 0 <= i < |xs| && key(xs[i]) == id
  }

  /** No two records share an id (a primary key). */
  predicate UniqueIds<T>(xs: seq<T>, key: T -> int) {
    forall i, j :: 0 <= i < j < |xs| ==> key(xs[i]) != key(xs[j])
  }

  /** The number of records carrying `id`. */
  function CountId<T>(xs: seq<T>, key: T -> int, id: int): (n: nat)
    ensures n <= |xs|
    ensures n == 0 <==> !HasId(xs, key, id)
  {
    if xs == [] then 0
    else
      var rest := CountId(xs[1..], key, id);
      assert HasId(xs, key, id) <==> key(xs[0]) == id || HasId(xs[1..], key, id) by {
        if HasId(xs[1..], key, id) {
          var i :| 0 <= i < |xs[1..]| && key(xs[1..][i]) == id;
          assert key(xs[i + 1]) == id;
        }
        if HasId(xs, key, id) && key(xs[0]) != id {
          var i :| 0 <= i < |xs| && key(xs[i]) == id;
          assert key(xs[1..][i - 1]) == id;
        }
      }
      (if key(xs[0]) == id then 1 else 0) + rest
  }

  /** `xs.map(x => key(x) === id ? y : x)`: every record with the id is replaced, the others stay put. */
  function ReplaceById<T>(xs: seq<T>, key: T -> int, id: int, y: T): (r: seq<T>)
    ensures |r| == |xs|
    ensures forall i :: 0 <= i < |xs| && key(xs[i]) != id ==> r[i] == xs[i]
    ensures forall i :: 0 <= i < |xs| && key(xs[i]) == id ==> r[i] == y
  {
    if xs == [] then []
    else [if key(xs[0]) == id then y else xs[0]] + ReplaceById(xs[1..], key, id, y)
  }

  /** `xs.filter(x => key(x) !== id)`: exactly the records without the id survive. */
  function RemoveById<T(!new)>(xs: seq<T>, key: T -> int, id: int): (r: seq<T>)
    ensures forall x :: x in r <==> x in xs && key(x) != id
    ensures |r| == |xs| - CountId(xs, key, id)
    ensures !HasId(r, key, id)
  {
    if xs == [] then []
    else if key(xs[0]) == id then RemoveById(xs[1..], key, id)
    else
      var rest := RemoveById(xs[1..], key, id);
      assert xs == [xs[0]] + xs[1..];
      [xs[0]] + rest
  }

  /** `xs.find(x => key(x) === id)` and SQL `.first()`: the first record with the id. */
  function FindById<T>(xs: seq<T>, key: T -> int, id: int): (r: Option<T>)
    ensures r.Some? <==> HasId(xs, key, id)
    ensures r.Some? ==> r.value in xs && key(r.value) == id
  {
    if xs == [] then None
    else if key(xs[0]) == id then Some(xs[0])
    else
      var rest := FindById(xs[1..], key, id);
      assert HasId(xs, key, id) ==> HasId(xs[1..], key, id) by {
        if HasId(xs, key, id) {
          var i :| 0 <= i < |xs| && key(xs[i]) == id;
          assert key(xs[1..][i - 1]) == id;
        }
      }
      assert HasId(xs[1..], key, id) ==> HasId(xs, key, id) by {
        if HasId(xs[1..], key, id) {
          var i :| 0 <= i < |xs[1..]| && key(xs[1..][i]) == id;
          assert key(xs[i + 1]) == id;
        }
      }
      rest
  }

  /** Filtering distributes over concatenation, so the survivors keep their relative order. */
  lemma {:induction false} RemoveByIdAppend<T(!new)>(a: seq<T>, b: seq<T>, key: T -> int, id: int)
    ensures RemoveById(a + b, key, id) == RemoveById(a, key, id) + RemoveById(b, key, id)
  {
    if a != [] {
      assert a + b == [a[0]] + (a[1..] + b) && a == [a[0]] + a[1..];
      RemoveByIdAppend(a[1..], b, key, id);
      RemoveByIdCons(a[0], a[1..] + b, key, id);
      RemoveByIdCons(a[0], a[1..], key, id);
    } else {
      assert a + b == b;
    }
  }

  lemma RemoveByIdCons<T(!new)>(x: T, xs: seq<T>, key: T -> int, id: int)
    ensures RemoveById([x] + xs, key, id) == (if key(x) == id then [] else [x]) + RemoveById(xs, key, id)
  {
    assert ([x] + xs)[0] == x && ([x] + xs)[1..] == xs;
  }


  /** Removing an id nobody carries changes nothing. */
  lemma {:induction false} RemoveAbsentId<T(!new)>(xs: seq<T>, key: T -> int, id: int)
    requires !HasId(xs, key, id)
    ensures RemoveById(xs, key, id) == xs
  {
    if xs != [] {
      assert key(xs[0]) != id;
      forall i | 0 <= i < |xs[1..]| ensures key(xs[1..][i]) != id {
        assert xs[1..][i] == xs[i + 1];
      }
      RemoveAbsentId(xs[1..], key, id);
      assert xs == [xs[0]] + xs[1..];
    }
  }

  /** Replacing under an id nobody carries changes nothing. */
  lemma ReplaceAbsentId<T>(xs: seq<T>, key: T -> int, id: int, y: T)
    requires !HasId(xs, key, id)
    ensures ReplaceById(xs, key, id, y) == xs
  {
  }

  /** Appending one record to the end keeps every earlier record at its index. */
  lemma AppendKeepsPrefix<T>(xs: seq<T>, y: T)
    ensures (xs + [y])[..|xs|] == xs && (xs + [y])[|xs|] == y
  {
  }

  /** Replacement by a record with the same id keeps the ids unique and the record findable. */
  lemma ReplaceKeepsUniqueIds<T>(xs: seq<T>, key: T -> int, id: int, y: T)
    requires UniqueIds(xs, key) && key(y) == id
    ensures UniqueIds(ReplaceById(xs, key, id, y), key)
    ensures HasId(xs, key, id) ==> FindById(ReplaceById(xs, key, id, y), key, id) == Some(y)
  {
    var r := ReplaceById(xs, key, id, y);
    assert forall i :: 0 <= i < |xs| ==> key(r[i]) == key(xs[i]);
    if HasId(xs, key, id) {
      FindInUnique(r, key, id);
    }
  }

  /** With unique ids, the record found under an id is the one at the id's position. */
  lemma {:induction false} FindInUnique<T>(xs: seq<T>, key: T -> int, id: int)
    requires UniqueIds(xs, key) && HasId(xs, key, id)
    ensures forall i :: 0 <= i < |xs| && key(xs[i]) == id ==> FindById(xs, key, id) == Some(xs[i])
  {
    if key(xs[0]) != id {
      assert HasId(xs[1..], key, id) by {
        var i :| 0 <= i < |xs| && key(xs[i]) == id;
        assert key(xs[1..][i - 1]) == id;
      }
      FindInUnique(xs[1..], key, id);
      forall i | 0 <= i < |xs| && key(xs[i]) == id
        ensures FindById(xs, key, id) == Some(xs[i])
      {
        assert xs[1..][i - 1] == xs[i];
      }
    }
  }

  /** Removing the records with an id keeps the remaining ids unique. */
  lemma {:induction false} RemoveKeepsUniqueIds<T(!new)>(xs: seq<T>, key: T -> int, id: int)
    requires UniqueIds(xs, key)
    ensures UniqueIds(RemoveById(xs, key, id), key)
  {
    if xs != [] {
      assert UniqueIds(xs[1..], key) by {
        forall i, j | 0 <= i < j < |xs[1..]| ensures key(xs[1..][i]) != key(xs[1..][j]) {
          assert xs[1..][i] == xs[i + 1] && xs[1..][j] == xs[j + 1];
        }
      }
      RemoveKeepsUniqueIds(xs[1..], key, id);
      var rest := RemoveById(xs[1..], key, id);
      if key(xs[0]) != id {
        var r := [xs[0]] + rest;
        forall i, j | 0 <= i < j < |r| ensures key(r[i]) != key(r[j]) {
          if i == 0 {
            assert r[j] in rest;
            assert r[j] in xs[1..];
            var k :| 0 <= k < |xs[1..]| && xs[1..][k] == r[j];
            assert xs[k + 1] == r[j];
          } else {
            assert r[i] == rest[i - 1] && r[j] == rest[j - 1];
          }
        }
      }
    }
  }

  /** With unique ids, an id that is present is carried by exactly one record. */
  lemma {:induction false} CountIdUnique<T>(xs: seq<T>, key: T -> int, id: int)
    requires UniqueIds(xs, key) && HasId(xs, key, id)
    ensures CountId(xs, key, id) == 1
  {
    assert UniqueIds(xs[1..], key) by {
      forall i, j | 0 <= i < j < |xs[1..]| ensures key(xs[1..][i]) != key(xs[1..][j]) {
        assert xs[1..][i] == xs[i + 1] && xs[1..][j] == xs[j + 1];
      }
    }
    if key(xs[0]) == id {
      forall i | 0 <= i < |xs[1..]| ensures key(xs[1..][i]) != id {
        assert xs[1..][i] == xs[i + 1];
      }
    } else {
      assert HasId(xs[1..], key, id) by {
        var i :| 0 <= i < |xs| && key(xs[i]) == id;
        assert key(xs[1..][i - 1]) == id;
      }
      CountIdUnique(xs[1..], key, id);
    }
  }

  /** `xs.filter(p)` and a SQL `WHERE`: the records satisfying `p`, in their original order. */
  function Filter<T(!new)>(xs: seq<T>, p: T -> bool): (r: seq<T>)
    ensures |r| <= |xs|
    ensures forall x :: x in r <==> x in xs && p(x)
  {
    if xs == [] then []
    else
      var rest := Filter(xs[1..], p);
      assert xs == [xs[0]] + xs[1..];
      if p(xs[0]) then [xs[0]] + rest else rest
  }

  /** Filtering distributes over concatenation, so it keeps the records' order and their repetitions. */
  lemma {:induction false} FilterAppend<T(!new)>(a: seq<T>, b: seq<T>, p: T -> bool)
    ensures Filter(a + b, p) == Filter(a, p) + Filter(b, p)
  {
    if a != [] {
      assert (a + b)[1..] == a[1..] + b;
      FilterAppend(a[1..], b, p);
    } else {
      assert a + b == b;
    }
  }
}
