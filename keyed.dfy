/**
 * Ordered tables as the object store keeps them: rows in ascending primary-key
 * order, looked up by key and filtered by an index field.
 */
module Keyed {
  import opened Outcomes

  /** Rows are strictly ascending by primary key, as `getAll` returns them. */
  predicate Ascending<T>(s: seq<T>, key: T -> nat) {
    forall i, j :: 0 <= i < j < |s| ==> key(s[i]) < key(s[j])
  }

  /**
   * A table produced by an auto-increment key generator whose next key is
   * `next`: ascending keys, every key issued already, the first key being 1.
   */
  predicate Table<T>(s: seq<T>, key: T -> nat, next: nat) {
    && 1 <= next
    && Ascending(s, key)
    && forall i :: 0 <= i < |s| ==> 1 <= key(s[i]) < next
  }

  /** Position of the row whose primary key is `k` (a keyed `store.get`). */
  function Find<T>(s: seq<T>, key: T -> nat, k: nat): (r: Option<nat>)
    ensures r.Some? ==> r.value < |s| && key(s[r.value]) == k
    ensures r.None? ==> forall i :: 0 <= i < |s| ==> key(s[i]) != k
  {
    if s == [] then None
    else if key(s[0]) == k then Some(0)
    else match Find(s[1..], key, k)
      case None => None
      case Some(i) => Some(i + 1)
  }

  /** The rows whose index field equals `k`, in table order (`index.getAll(k)`). */
  function Where<T(!new), K(==)>(s: seq<T>, field: T -> K, k: K): (r: seq<T>)
    ensures forall x :: x in r <==> x in s && field(x) == k
    ensures |r| <= |s|
  {
    if s == [] then []
    else (if field(s[0]) == k then [s[0]] else []) + Where(s[1..], field, k)
  }

  /** One step of `Where` over a suffix: the row at `i` counts once if it matches. */
  lemma WhereStep<T(!new), K>(s: seq<T>, field: T -> K, k: K, i: nat)
    requires i < |s|
    ensures |Where(s[i..], field, k)| == (if field(s[i]) == k then 1 else 0) + |Where(s[i + 1..], field, k)|
  {
    assert s[i..][0] == s[i];
    assert s[i..][1..] == s[i + 1..];
  }

  /** The rows whose field differs from `k`: what is left after deleting the others. */
  function Except<T(!new), K(==)>(s: seq<T>, field: T -> K, k: K): (r: seq<T>)
    ensures forall x :: x in r <==> x in s && field(x) != k
    ensures |r| <= |s|
  {
    if s == [] then []
    else (if field(s[0]) != k then [s[0]] else []) + Except(s[1..], field, k)
  }

  /** Every row lands on exactly one side of an index value. */
  lemma {:induction false} WhereExceptPartition<T(!new), K>(s: seq<T>, field: T -> K, k: K)
    ensures |Where(s, field, k)| + |Except(s, field, k)| == |s|
  {
    if s != [] {
      WhereExceptPartition(s[1..], field, k);
    }
  }

  lemma {:induction false} ExceptAppend<T(!new), K>(a: seq<T>, b: seq<T>, field: T -> K, k: K)
    ensures Except(a + b, field, k) == Except(a, field, k) + Except(b, field, k)
  {
    if a == [] {
      assert a + b == b;
    } else {
      assert (a + b)[1..] == a[1..] + b;
      ExceptAppend(a[1..], b, field, k);
    }
  }

  /** Deleting one row the filter drops does not change the filter's result. */
  lemma ExceptDropMatching<T(!new), K>(s: seq<T>, field: T -> K, k: K, i: nat)
    requires i < |s| && field(s[i]) == k
    ensures Except(s[..i] + s[i + 1..], field, k) == Except(s, field, k)
  {
    var pre, rest := s[..i], s[i..];
    assert s == pre + rest;
    assert rest[1..] == s[i + 1..];
    assert rest[0] == s[i];
    assert Except(rest, field, k) == Except(s[i + 1..], field, k);
    ExceptAppend(pre, rest, field, k);
    ExceptAppend(pre, s[i + 1..], field, k);
  }

  /** A table with no row to drop is its own filter. */
  lemma {:induction false} ExceptNoneMatching<T(!new), K>(s: seq<T>, field: T -> K, k: K)
    requires forall i :: 0 <= i < |s| ==> field(s[i]) != k
    ensures Except(s, field, k) == s
  {
    if s != [] {
      ExceptNoneMatching(s[1..], field, k);
    }
  }

  /** With unique keys, dropping the rows keyed `k` is deleting the one row `Find` locates. */
  lemma ExceptByKey<T(!new)>(s: seq<T>, key: T -> nat, k: nat)
    requires Ascending(s, key)
    ensures Find(s, key, k).None? ==> Except(s, key, k) == s
    ensures Find(s, key, k).Some? ==>
      var i := Find(s, key, k).value; Except(s, key, k) == s[..i] + s[i + 1..]
  {
    match Find(s, key, k)
    case None =>
      ExceptNoneMatching(s, key, k);
    case Some(i) =>
      ExceptDropMatching(s, key, k, i);
      var rest := s[..i] + s[i + 1..];
      forall j | 0 <= j < |rest| ensures key(rest[j]) != k {
        if j < i { assert rest[j] == s[j]; } else { assert rest[j] == s[j + 1]; }
      }
      ExceptNoneMatching(rest, key, k);
  }

  /**
   * A cursor over one index value that deletes every row it visits
   * (`openCursor(IDBKeyRange.only(k))` with `cursor.delete()`): what is left
   * is exactly the rows whose field differs, still in key order.
   */
  method DeleteWhere<T(!new), K(==)>(rows: seq<T>, key: T -> nat, next: nat, field: T -> K, k: K)
    returns (kept: seq<T>)
    requires Table(rows, key, next)
    ensures kept == Except(rows, field, k)
    ensures Table(kept, key, next)
  {
    kept := rows;
    var i := 0;
    while i < |kept|
      invariant i <= |kept|
      invariant Table(kept, key, next)
      invariant Except(kept, field, k) == Except(rows, field, k)
      invariant forall j :: 0 <= j < i ==> field(kept[j]) != k
    {
      if field(kept[i]) == k {
        ExceptDropMatching(kept, field, k, i);
        TableRemoveAt(kept, key, next, i);
        kept := kept[..i] + kept[i + 1..];
      } else {
        i := i + 1;
      }
    }
    ExceptNoneMatching(kept, field, k);
  }

  /** Deleting a row keeps a table a table. */
  lemma TableRemoveAt<T>(s: seq<T>, key: T -> nat, next: nat, i: nat)
    requires Table(s, key, next) && i < |s|
    ensures Table(s[..i] + s[i + 1..], key, next)
  {
    var r := s[..i] + s[i + 1..];
    forall a, b | 0 <= a < b < |r| ensures key(r[a]) < key(r[b]) {
      var a' := if a < i then a else a + 1;
      var b' := if b < i then b else b + 1;
      assert r[a] == s[a'] && r[b] == s[b'];
    }
    forall a | 0 <= a < |r| ensures 1 <= key(r[a]) < next {
      assert r[a] == s[if a < i then a else a + 1];
    }
  }

  /** Appending a row with the generator's key and advancing the generator keeps a table. */
  lemma TableAppend<T>(s: seq<T>, key: T -> nat, next: nat, x: T)
    requires Table(s, key, next) && key(x) == next
    ensures Table(s + [x], key, next + 1)
  {
  }

  /** Replacing a row by one with the same key keeps a table. */
  lemma TableReplace<T>(s: seq<T>, key: T -> nat, next: nat, i: nat, x: T)
    requires Table(s, key, next) && i < |s| && key(x) == key(s[i])
    ensures Table(s[i := x], key, next)
  {
  }
}
