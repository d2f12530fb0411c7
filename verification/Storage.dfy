/** Buckets of key/value rows and the paged cursor that walks them. */
module Storage {
  import opened KeyOrder

  datatype Option<+T> = None | Some(value: T)

  datatype Entry<+V> = Entry(key: Key, value: V)

  /** The three WHERE clauses the cursor issues: none, `key >= k`, `key > k`. */
  datatype Bound = Start | AtLeast(k: Key) | Above(k: Key)

  const PAGE_SIZE := 256

  predicate Admits(b: Bound, key: Key)
  {
    match b
    case Start => true
    case AtLeast(k) => AtMost(k, key)
    case Above(k) => Less(k, key)
  }

  /** Rows in strictly ascending key order: a table read through its primary key. */
  ghost predicate Ascending<V>(rows: seq<Entry<V>>)
  {
    forall i, j :: 0 <= i < j < |rows| ==> Less(rows[i].key, rows[j].key)
  }

  ghost predicate HasKey<V>(rows: seq<Entry<V>>, k: Key)
  {
    exists i :: 0 <= i < |rows| && rows[i].key == k
  }

  function Select<V>(rows: seq<Entry<V>>, b: Bound): seq<Entry<V>>
  {
    if rows == [] then []
    else if Admits(b, rows[0].key) then [rows[0]] + Select(rows[1..], b)
    else Select(rows[1..], b)
  }

  function Without<V>(rows: seq<Entry<V>>, k: Key): seq<Entry<V>>
  {
    if rows == [] then []
    else if rows[0].key == k then Without(rows[1..], k)
    else [rows[0]] + Without(rows[1..], k)
  }

  function Insert<V>(rows: seq<Entry<V>>, k: Key, v: V): seq<Entry<V>>
  {
    if rows == [] || Less(k, rows[0].key) then [Entry(k, v)] + rows
    else if rows[0].key == k then [Entry(k, v)] + rows[1..]
    else [rows[0]] + Insert(rows[1..], k, v)
  }

  function MapOf<V>(rows: seq<Entry<V>>): map<Key, V>
  {
    if rows == [] then map[] else MapOf(rows[1..])[rows[0].key := rows[0].value]
  }

  function Find<V>(m: map<Key, V>, k: Key): Option<V>
  {
    if k in m then Some(m[k]) else None
  }

  lemma {:induction false} MapOfKeys<V>(rows: seq<Entry<V>>, k: Key)
    ensures k in MapOf(rows) <==> HasKey(rows, k)
  {
    if rows != [] {
      MapOfKeys(rows[1..], k);
      if k in MapOf(rows) && k != rows[0].key {
        var i :| 0 <= i < |rows[1..]| && rows[1..][i].key == k;
        assert rows[i + 1].key == k;
      }
      if HasKey(rows, k) {
        var i :| 0 <= i < |rows| && rows[i].key == k;
        if i > 0 { assert rows[1..][i - 1].key == k; }
      }
    }
  }

  lemma {:induction false} MapOfAt<V>(rows: seq<Entry<V>>, i: nat)
    requires Ascending(rows) && i < |rows|
    ensures rows[i].key in MapOf(rows) && MapOf(rows)[rows[i].key] == rows[i].value
  {
    if i > 0 {
      LessAsymmetric(rows[0].key, rows[i].key);
      MapOfAt(rows[1..], i - 1);
    }
  }

  /** On an ascending table a bound keeps a whole suffix. */
  lemma {:induction false} SelectIsSuffix<V>(rows: seq<Entry<V>>, b: Bound) returns (n: nat)
    requires Ascending(rows)
    ensures n <= |rows| && Select(rows, b) == rows[n..]
    ensures forall i :: 0 <= i < |rows| ==> (Admits(b, rows[i].key) <==> n <= i)
  {
    if rows == [] {
      n := 0;
    } else if Admits(b, rows[0].key) {
      n := 0;
      forall i | 0 <= i < |rows| ensures Admits(b, rows[i].key) {
        if i > 0 {
          assert Less(rows[0].key, rows[i].key);
          if b.AtLeast? && b.k != rows[0].key { LessTransitive(b.k, rows[0].key, rows[i].key); }
          if b.Above? { LessTransitive(b.k, rows[0].key, rows[i].key); }
        }
      }
      SelectAll(rows, b);
    } else {
      var m := SelectIsSuffix(rows[1..], b);
      n := m + 1;
      forall i | 0 <= i < |rows| ensures Admits(b, rows[i].key) <==> n <= i {
        if i > 0 { assert rows[i] == rows[1..][i - 1]; }
      }
    }
  }

  lemma {:induction false} SelectAll<V>(rows: seq<Entry<V>>, b: Bound)
    requires forall i :: 0 <= i < |rows| ==> Admits(b, rows[i].key)
    ensures Select(rows, b) == rows
  {
    if rows != [] {
      forall i | 0 <= i < |rows[1..]| ensures Admits(b, rows[1..][i].key) { assert rows[1..][i] == rows[i + 1]; }
      SelectAll(rows[1..], b);
    }
  }

  /** Seen from its own first row, a selection continues with its tail. */
  lemma SelectNext<V>(rows: seq<Entry<V>>, b: Bound)
    requires Ascending(rows) && Select(rows, b) != []
    ensures Select(rows, Above(Select(rows, b)[0].key)) == Select(rows, b)[1..]
  {
    var n := SelectIsSuffix(rows, b);
    var k := rows[n].key;
    var m := SelectIsSuffix(rows, Above(k));
    LessIrreflexive(k);
    assert !Admits(Above(k), rows[n].key);
    assert n + 1 < |rows| ==> Admits(Above(k), rows[n + 1].key);
  }

  lemma {:induction false} WithoutAbsent<V>(rows: seq<Entry<V>>, k: Key)
    requires !HasKey(rows, k)
    ensures Without(rows, k) == rows
  {
    if rows != [] {
      assert rows[0].key != k;
      forall i | 0 <= i < |rows[1..]| ensures rows[1..][i].key != k { assert rows[1..][i] == rows[i + 1]; }
      WithoutAbsent(rows[1..], k);
    }
  }

  lemma {:induction false} WithoutAt<V>(rows: seq<Entry<V>>, i: nat)
    requires Ascending(rows) && i < |rows|
    ensures Without(rows, rows[i].key) == rows[..i] + rows[i + 1..]
  {
    var k := rows[i].key;
    if i == 0 {
      forall j | 0 < j < |rows| ensures rows[j].key != k { LessAsymmetric(k, rows[j].key); }
      WithoutAbsent(rows[1..], k);
    } else {
      LessAsymmetric(rows[0].key, k);
      WithoutAt(rows[1..], i - 1);
      assert rows[1..][..i - 1] == rows[1..i] && rows[1..][i..] == rows[i + 1..];
      assert [rows[0]] + rows[1..i] == rows[..i];
    }
  }

  lemma WithoutAscending<V>(rows: seq<Entry<V>>, k: Key)
    requires Ascending(rows)
    ensures Ascending(Without(rows, k))
  {
    if HasKey(rows, k) {
      var i :| 0 <= i < |rows| && rows[i].key == k;
      WithoutAt(rows, i);
    } else {
      WithoutAbsent(rows, k);
    }
  }

  lemma {:induction false} WithoutMap<V>(rows: seq<Entry<V>>, k: Key)
    ensures MapOf(Without(rows, k)) == MapOf(rows) - {k}
  {
    if rows != [] { WithoutMap(rows[1..], k); }
  }

  lemma {:induction false} InsertMap<V>(rows: seq<Entry<V>>, k: Key, v: V)
    requires Ascending(rows)
    ensures MapOf(Insert(rows, k, v)) == MapOf(rows)[k := v]
  {
    if rows != [] && !Less(k, rows[0].key) && rows[0].key != k { InsertMap(rows[1..], k, v); }
  }

  /** An insertion adds no other key. */
  lemma {:induction false} InsertKeys<V>(rows: seq<Entry<V>>, k: Key, v: V)
    ensures forall i :: 0 <= i < |Insert(rows, k, v)| ==>
              Insert(rows, k, v)[i].key == k || Insert(rows, k, v)[i] in rows
  {
    if rows != [] && !Less(k, rows[0].key) && rows[0].key != k { InsertKeys(rows[1..], k, v); }
  }

  lemma {:induction false} InsertAscending<V>(rows: seq<Entry<V>>, k: Key, v: V)
    requires Ascending(rows)
    ensures Ascending(Insert(rows, k, v))
  {
    if rows == [] {
    } else if Less(k, rows[0].key) {
      forall j | 0 <= j < |rows| ensures Less(k, rows[j].key) {
        if j > 0 { LessTransitive(k, rows[0].key, rows[j].key); }
      }
    } else if rows[0].key != k {
      LessTotal(rows[0].key, k);
      InsertAscending(rows[1..], k, v);
      InsertKeys(rows[1..], k, v);
      var t := Insert(rows[1..], k, v);
      forall i | 0 <= i < |t| ensures Less(rows[0].key, t[i].key) { assert t[i].key == k || t[i] in rows[1..]; }
    }
  }

  /**
   * Deleting a row the cursor has already passed (its key is not above the current key) leaves
   * the rest of the walk untouched.
   */
  lemma DeleteBehindKeepsWalk<V>(rows: seq<Entry<V>>, at: Key, k: Key)
    requires Ascending(rows) && !Less(at, k)
    ensures Select(Without(rows, k), Above(at)) == Select(rows, Above(at))
  {
    SelectWithout(rows, Above(at), k);
    SelectAdmits(rows, Above(at));
    WithoutAbsent(Select(rows, Above(at)), k);
  }

  lemma {:induction false} SelectAdmits<V>(rows: seq<Entry<V>>, b: Bound)
    ensures forall i :: 0 <= i < |Select(rows, b)| ==> Admits(b, Select(rows, b)[i].key)
  {
    if rows != [] { SelectAdmits(rows[1..], b); }
  }

  /**
   * Deleting a row behind the cursor's back keeps a buffered page truthful exactly when the
   * deleted key is not among the rows already fetched.
   */
  lemma DeleteAheadOfCursor<V>(rows: seq<Entry<V>>, at: Key, page: seq<Entry<V>>, k: Key)
    requires Ascending(rows) && page <= Select(rows, Above(at))
    ensures page <= Select(Without(rows, k), Above(at)) <==> !HasKey(page, k)
  {
    var walk := Select(rows, Above(at));
    var after := Select(Without(rows, k), Above(at));
    SelectWithout(rows, Above(at), k);
    assert after == Without(walk, k);
    var n := SelectIsSuffix(rows, Above(at));
    if HasKey(page, k) {
      WithoutGone(walk, k);
      var i :| 0 <= i < |page| && page[i].key == k;
      assert i < |after| ==> after[i].key != k;
    } else {
      WithoutPrefix(walk, |page|, k);
    }
  }

  lemma {:induction false} SelectWithout<V>(rows: seq<Entry<V>>, b: Bound, k: Key)
    ensures Select(Without(rows, k), b) == Without(Select(rows, b), k)
  {
    if rows != [] { SelectWithout(rows[1..], b, k); }
  }

  lemma {:induction false} WithoutGone<V>(rows: seq<Entry<V>>, k: Key)
    ensures forall i :: 0 <= i < |Without(rows, k)| ==> Without(rows, k)[i].key != k
  {
    if rows != [] { WithoutGone(rows[1..], k); }
  }

  lemma {:induction false} WithoutPrefix<V>(rows: seq<Entry<V>>, n: nat, k: Key)
    requires n <= |rows| && forall i :: 0 <= i < n ==> rows[i].key != k
    ensures rows[..n] <= Without(rows, k)
  {
    if n > 0 {
      WithoutPrefix(rows[1..], n - 1, k);
      assert rows[..n] == [rows[0]] + rows[1..][..n - 1];
    }
  }

  class Bucket<V> {
    var rows: seq<Entry<V>>

    ghost predicate Valid()
      reads this
    {
      Ascending(rows)
    }

    function Contents(): map<Key, V>
      reads this
    {
      MapOf(rows)
    }

    constructor ()
      ensures Valid() && rows == []
    {
      rows := [];
    }

    method Get(k: Key) returns (v: Option<V>)
      ensures v == Find(Contents(), k)
    {
      v := None;
      var i := |rows|;
      while i > 0
        invariant 0 <= i <= |rows|
        invariant v == Find(MapOf(rows[i..]), k)
      {
        i := i - 1;
        assert rows[i..][1..] == rows[i + 1..];
        if rows[i].key == k { v := Some(rows[i].value); }
      }
      assert rows[0..] == rows;
    }

    /** An empty key is refused. */
    method Put(k: Key, v: V) returns (ok: bool)
      requires Valid()
      modifies this
      ensures Valid() && (ok <==> k != "")
      ensures Contents() == if ok then old(Contents())[k := v] else old(Contents())
      ensures !ok ==> rows == old(rows)
    {
      ok := k != "";
      if ok {
        InsertAscending(rows, k, v);
        InsertMap(rows, k, v);
        rows := Insert(rows, k, v);
      }
    }

    method Delete(k: Key)
      requires Valid()
      modifies this
      ensures Valid() && rows == Without(old(rows), k)
      ensures Contents() == old(Contents()) - {k}
    {
      WithoutAscending(rows, k);
      WithoutMap(rows, k);
      rows := Without(rows, k);
    }
  }

  /** A cursor that fetches `pageSize` rows per query and hands them out one by one. */
  class Cursor<V> {
    const bucket: Bucket<V>
    const pageSize: nat
    var key: Option<Key>
    var ended: bool
    var page: seq<Entry<V>>

    /** What the walk still has to return: the sorted table above the current key. */
    ghost function Remaining(): seq<Entry<V>>
      reads this, bucket
    {
      if ended then []
      else if key.None? then bucket.rows
      else Select(bucket.rows, Above(key.value))
    }

    ghost predicate Valid()
      reads this, bucket
    {
      && pageSize > 0
      && bucket.Valid()
      && (!ended ==> page <= Remaining())
      && (key.None? && !ended ==> page == [])
    }

    constructor (b: Bucket<V>, size: nat)
      requires b.Valid() && size > 0
      ensures Valid() && bucket == b && pageSize == size && key.None? && !ended
    {
      bucket, pageSize := b, size;
      key, ended, page := None, false, [];
    }

    method Read(b: Bound) returns (e: Option<Entry<V>>)
      requires Valid() && !ended
      modifies this
      ensures Valid()
      ensures Returned(Select(bucket.rows, b), e)
      ensures e.None? ==> key == old(key)
    {
      var found := Select(bucket.rows, b);
      page := if |found| <= pageSize then found else found[..pageSize];
      e := Take(found, b);
    }

    /** Hand out the first buffered row of a selection the page starts. */
    method Take(ghost rest: seq<Entry<V>>, ghost b: Bound) returns (e: Option<Entry<V>>)
      requires pageSize > 0 && bucket.Valid() && !ended
      requires rest == Select(bucket.rows, b) && page <= rest && (page == [] ==> rest == [])
      modifies this
      ensures Valid()
      ensures Returned(rest, e)
      ensures e.None? ==> key == old(key)
    {
      if |page| == 0 {
        ended := true;
        return None;
      }
      SelectNext(bucket.rows, b);
      e := Some(page[0]);
      key := Some(page[0].key);
      page := page[1..];
      assert page <= rest[1..];
    }

    /** `e` is the head of `rest` and the walk goes on with its tail; at the end the cursor has ended. */
    ghost predicate Returned(rest: seq<Entry<V>>, e: Option<Entry<V>>)
      reads this, bucket
    {
      if rest == [] then e.None? && ended
      else e == Some(rest[0]) && !ended && key == Some(rest[0].key) && Remaining() == rest[1..]
    }

    method First() returns (e: Option<Entry<V>>)
      requires Valid()
      modifies this
      ensures Valid() && Returned(bucket.rows, e)
      ensures e.None? ==> key == old(key)
    {
      SelectAll(bucket.rows, Start);
      ended, page := false, [];
      e := Read(Start);
    }

    method Seek(k: Key) returns (e: Option<Entry<V>>)
      requires Valid()
      modifies this
      ensures Valid() && Returned(Select(bucket.rows, AtLeast(k)), e)
      ensures e.None? ==> key == old(key)
    {
      ended, page := false, [];
      e := Read(AtLeast(k));
    }

    method Next() returns (e: Option<Entry<V>>)
      requires Valid()
      modifies this
      ensures Valid() && Returned(old(Remaining()), e)
      ensures e.None? ==> key == old(key)
    {
      if ended { return None; }
      if |page| > 0 {
        e := Take(Remaining(), Above(key.value));
      } else if key.None? {
        e := First();
      } else {
        e := Read(Above(key.value));
      }
    }

    /** Deletes the row last returned; refused before the first row and after the last. */
    method Delete() returns (ok: bool)
      requires Valid()
      modifies bucket
      ensures Valid() && (ok <==> key.Some? && !ended)
      ensures bucket.rows == if ok then Without(old(bucket.rows), key.value) else old(bucket.rows)
      ensures Remaining() == old(Remaining())
    {
      ok := key.Some? && !ended;
      if ok {
        LessIrreflexive(key.value);
        DeleteBehindKeepsWalk(bucket.rows, key.value, key.value);
        bucket.Delete(key.value);
      }
    }
  }

  /** The rows a callback sees before it first refuses one. */
  function UntilRefused<V>(rows: seq<Entry<V>>, refuse: Entry<V> -> bool): seq<Entry<V>>
  {
    if rows == [] then [] else if refuse(rows[0]) then [rows[0]] else [rows[0]] + UntilRefused(rows[1..], refuse)
  }

  predicate NoneRefused<V>(rows: seq<Entry<V>>, refuse: Entry<V> -> bool)
  {
    forall i :: 0 <= i < |rows| ==> !refuse(rows[i])
  }

  /** Visit every row in key order until the callback refuses one; the table is unchanged. */
  method ForEach<V>(b: Bucket<V>, size: nat, refuse: Entry<V> -> bool) returns (seen: seq<Entry<V>>, ok: bool)
    requires b.Valid() && size > 0
    ensures seen == UntilRefused(b.rows, refuse)
    ensures ok <==> NoneRefused(b.rows, refuse)
  {
    var c := new Cursor(b, size);
    var e := c.First();
    seen := [];
    ghost var left := b.rows;
    while e.Some?
      invariant c.Valid() && c.bucket == b && fresh(c) && c.Returned(left, e)
      invariant b.rows == seen + left && NoneRefused(seen, refuse)
      decreases |left|
    {
      var x := e.value;
      Regroup(seen, left);
      if refuse(x) {
        RefusedHere(seen, x, left[1..], refuse);
        return seen + [x], false;
      }
      seen := seen + [x];
      e := c.Next();
      left := left[1..];
    }
    RefusedNone(seen, left, refuse);
    ok := true;
  }

  lemma {:induction false} RefusedAfter<V>(seen: seq<Entry<V>>, left: seq<Entry<V>>, refuse: Entry<V> -> bool)
    requires NoneRefused(seen, refuse)
    ensures UntilRefused(seen + left, refuse) == seen + UntilRefused(left, refuse)
  {
    if seen == [] {
      assert seen + left == left;
    } else {
      RefusedAfter(seen[1..], left, refuse);
      assert (seen + left)[1..] == seen[1..] + left && seen == [seen[0]] + seen[1..];
    }
  }

  lemma Regroup<T>(seen: seq<T>, left: seq<T>)
    requires left != []
    ensures seen + left == seen + [left[0]] + left[1..]
  {
  }

  lemma RefusedNone<V>(seen: seq<Entry<V>>, left: seq<Entry<V>>, refuse: Entry<V> -> bool)
    requires NoneRefused(seen, refuse) && left == []
    ensures UntilRefused(seen + left, refuse) == seen && NoneRefused(seen + left, refuse)
  {
    RefusedAfter(seen, left, refuse);
    assert seen + left == seen;
  }

  /** A row that is refused ends the walk. */
  lemma RefusedHere<V>(seen: seq<Entry<V>>, x: Entry<V>, rest: seq<Entry<V>>, refuse: Entry<V> -> bool)
    requires NoneRefused(seen, refuse) && refuse(x)
    ensures UntilRefused(seen + [x] + rest, refuse) == seen + [x] && !NoneRefused(seen + [x] + rest, refuse)
  {
    var left := [x] + rest;
    assert left[0] == x;
    RefusedAfter(seen, left, refuse);
    assert seen + [x] + rest == seen + left;
    assert (seen + left)[|seen|] == x;
  }

  /** The sorted table from a start point. */
  function From<V>(rows: seq<Entry<V>>, start: Option<Key>): seq<Entry<V>>
  {
    if start.None? then rows else Select(rows, AtLeast(start.value))
  }

  /** A table after deleting those of `todo` a caller wants gone. */
  ghost function Cut<V>(rows: seq<Entry<V>>, todo: seq<Entry<V>>, drop: Entry<V> -> bool): seq<Entry<V>>
    decreases |todo|
  {
    if todo == [] then rows else Cut(if drop(todo[0]) then Without(rows, todo[0].key) else rows, todo[1..], drop)
  }

  /**
   * Any walk, from the first row or from a key, for any page size: it returns exactly the rows of the table from
   * the start point, once each and in order, also while the caller deletes rows just returned.
   */
  method Walk<V>(b: Bucket<V>, size: nat, start: Option<Key>, drop: Entry<V> -> bool) returns (seen: seq<Entry<V>>)
    requires b.Valid() && size > 0
    modifies b
    ensures b.Valid() && seen == From(old(b.rows), start) && b.rows == Cut(old(b.rows), seen, drop)
  {
    var c := new Cursor(b, size);
    var e: Option<Entry<V>>;
    if start.None? { e := c.First(); } else { e := c.Seek(start.value); }
    seen := [];
    ghost var rows, all := b.rows, From(b.rows, start);
    ghost var left := all;
    while e.Some?
      invariant c.Valid() && c.bucket == b && fresh(c) && c.Returned(left, e) && all == seen + left
      invariant Cut(b.rows, left, drop) == Cut(rows, all, drop)
      decreases |left|
    {
      var x := e.value;
      Regroup(seen, left);
      seen := seen + [x];
      if drop(x) { var _ := c.Delete(); }
      e := c.Next();
      left := left[1..];
    }
    assert all == seen;
  }
}
