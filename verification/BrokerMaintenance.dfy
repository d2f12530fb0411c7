/** Broker maintenance: one budget of deletions spent over several buckets, each walked from its start. */
module BrokerMaintenance {
  import opened KeyOrder
  import opened Storage
  import opened Models
  import M = OidcMaintenance

  predicate Stale<V>(e: Entry<V>, now: Time, expiry: V -> Time) { expiry(e.value) <= now }

  /** The expired rows, in key order. */
  function StaleRows<V>(rows: seq<Entry<V>>, now: Time, expiry: V -> Time): seq<Entry<V>>
  {
    if rows == [] then []
    else if Stale(rows[0], now, expiry) then [rows[0]] + StaleRows(rows[1..], now, expiry)
    else StaleRows(rows[1..], now, expiry)
  }

  /** What is left when the first `budget` expired rows are gone. */
  function Reap<V>(rows: seq<Entry<V>>, budget: nat, now: Time, expiry: V -> Time): seq<Entry<V>>
  {
    if rows == [] || budget == 0 then rows
    else if Stale(rows[0], now, expiry) then Reap(rows[1..], budget - 1, now, expiry)
    else [rows[0]] + Reap(rows[1..], budget, now, expiry)
  }

  /** The rows it removes. */
  function Reaped<V>(rows: seq<Entry<V>>, budget: nat, now: Time, expiry: V -> Time): (gone: seq<Entry<V>>)
    ensures |gone| <= budget
  {
    if rows == [] || budget == 0 then []
    else if Stale(rows[0], now, expiry) then [rows[0]] + Reaped(rows[1..], budget - 1, now, expiry)
    else Reaped(rows[1..], budget, now, expiry)
  }

  function Least(a: nat, b: nat): nat { if a <= b then a else b }

  /** Exactly the first `min(budget, expired)` expired rows go. */
  lemma {:induction false} ReapedArePrefix<V>(rows: seq<Entry<V>>, budget: nat, now: Time, expiry: V -> Time)
    ensures var stale := StaleRows(rows, now, expiry);
            Reaped(rows, budget, now, expiry) == stale[..Least(budget, |stale|)]
    ensures |Reap(rows, budget, now, expiry)| == |rows| - |Reaped(rows, budget, now, expiry)|
  {
    if rows != [] && budget > 0 {
      var left := if Stale(rows[0], now, expiry) then budget - 1 else budget;
      ReapedArePrefix(rows[1..], left, now, expiry);
    }
  }

  /** A row survives or is reaped, never both, and only expired rows are reaped. */
  lemma {:induction false} ReapPartitions<V>(rows: seq<Entry<V>>, budget: nat, now: Time, expiry: V -> Time)
    requires Ascending(rows)
    ensures var kept, gone := Reap(rows, budget, now, expiry), Reaped(rows, budget, now, expiry);
            && Ascending(kept)
            && (forall e :: e in rows ==> e in kept || e in gone)
            && (forall e :: e in kept ==> e in rows)
            && (forall e :: e in gone ==> e in rows && e !in kept && Stale(e, now, expiry))
  {
    if rows != [] && budget > 0 {
      var left := if Stale(rows[0], now, expiry) then budget - 1 else budget;
      ReapPartitions(rows[1..], left, now, expiry);
      HeadIsLeast(rows);
      assert rows == [rows[0]] + rows[1..];
      var tail := Reap(rows[1..], left, now, expiry);
      forall i | 0 <= i < |tail| ensures Less(rows[0].key, tail[i].key) { assert tail[i] in rows[1..]; }
    }
  }

  lemma HeadIsLeast<V>(rows: seq<Entry<V>>)
    requires Ascending(rows) && rows != []
    ensures rows[0] !in rows[1..] && forall e :: e in rows[1..] ==> Less(rows[0].key, e.key)
  {
    LessIrreflexive(rows[0].key);
  }

  /** The index once the entries of the removed rows are gone. */
  ghost function Unindex<V>(index: seq<Entry<Key>>, gone: seq<Entry<V>>, name: V -> Option<Key>): seq<Entry<Key>>
    decreases |gone|
  {
    if gone == [] then index
    else Unindex(if name(gone[0].value).Some? then Without(index, name(gone[0].value).value) else index,
                 gone[1..], name)
  }

  ghost function NamesOf<V>(gone: seq<Entry<V>>, name: V -> Option<Key>): set<Key>
  {
    set e | e in gone && name(e.value).Some? :: name(e.value).value
  }

  lemma {:induction false} UnindexMap<V>(index: seq<Entry<Key>>, gone: seq<Entry<V>>, name: V -> Option<Key>)
    ensures MapOf(Unindex(index, gone, name)) == MapOf(index) - NamesOf(gone, name)
    decreases |gone|
  {
    if gone != [] {
      var n := name(gone[0].value);
      var first := if n.Some? then {n.value} else {};
      var next := if n.Some? then Without(index, n.value) else index;
      if n.Some? { WithoutMap(index, n.value); }
      UnindexMap(next, gone[1..], name);
      NamesSplit(gone, name);
      assert NamesOf(gone, name) == first + NamesOf(gone[1..], name);
    }
  }

  lemma NamesSplit<V>(gone: seq<Entry<V>>, name: V -> Option<Key>)
    requires gone != []
    ensures var n := name(gone[0].value);
            NamesOf(gone, name) == (if n.Some? then {n.value} else {}) + NamesOf(gone[1..], name)
  {
    assert gone == [gone[0]] + gone[1..];
  }

  /** The bucket, its index and the count while a walk is under way. */
  datatype Walk<V> = Walk(rows: seq<Entry<V>>, index: seq<Entry<Key>>, removed: nat)

  /** Delete one row and its index entry. */
  ghost function Removed<V>(w: Walk<V>, x: Entry<V>, name: V -> Option<Key>): Walk<V>
  {
    Walk(Without(w.rows, x.key), if name(x.value).Some? then Without(w.index, name(x.value).value) else w.index,
         w.removed + 1)
  }

  ghost function Visited<V>(w: Walk<V>, x: Entry<V>, name: V -> Option<Key>, now: Time, expiry: V -> Time): Walk<V>
  {
    if Stale(x, now, expiry) then Removed(w, x, name) else w
  }

  /** Where the walk ends that still has the rows `left` and `k` deletions to go. */
  ghost function Finish<V>(w: Walk<V>, left: seq<Entry<V>>, k: nat, name: V -> Option<Key>, now: Time,
                           expiry: V -> Time): Walk<V>
    decreases |left|
  {
    if left == [] || k == 0 then w
    else if Stale(left[0], now, expiry) then Finish(Removed(w, left[0], name), left[1..], k - 1, name, now, expiry)
    else Finish(w, left[1..], k, name, now, expiry)
  }

  lemma FinishStep<V>(w: Walk<V>, left: seq<Entry<V>>, k: nat, name: V -> Option<Key>, now: Time, expiry: V -> Time)
    requires left != [] && k > 0
    ensures Finish(w, left, k, name, now, expiry)
         == Finish(Visited(w, left[0], name, now, expiry), left[1..],
                   if Stale(left[0], now, expiry) then k - 1 else k, name, now, expiry)
    ensures Visited(w, left[0], name, now, expiry).removed == w.removed + if Stale(left[0], now, expiry) then 1 else 0
  {
  }

  lemma UnindexCons<V>(index: seq<Entry<Key>>, x: Entry<V>, rest: seq<Entry<V>>, name: V -> Option<Key>)
    ensures Unindex(index, [x] + rest, name)
         == Unindex(if name(x.value).Some? then Without(index, name(x.value).value) else index, rest, name)
  {
    assert ([x] + rest)[1..] == rest;
  }

  /** Deleting row by row comes to the reaped bucket, its index without the removed rows' names, and their number. */
  lemma {:induction false} FinishIsReap<V>(a: seq<Entry<V>>, index: seq<Entry<Key>>, n: nat, left: seq<Entry<V>>,
                                           k: nat, name: V -> Option<Key>, now: Time, expiry: V -> Time)
    requires Ascending(a + left)
    ensures var gone := Reaped(left, k, now, expiry);
            Finish(Walk(a + left, index, n), left, k, name, now, expiry)
            == Walk(a + Reap(left, k, now, expiry), Unindex(index, gone, name), n + |gone|)
    decreases |left|
  {
    if left != [] && k > 0 {
      var x, t := left[0], left[1..];
      assert a + left == a + [x] + t;
      if Stale(x, now, expiry) {
        M.DropMiddle(a, x, t);
        WithoutAscending(a + left, x.key);
        var w := Removed(Walk(a + left, index, n), x, name);
        assert w == Walk(a + t, w.index, n + 1);
        FinishIsReap(a, w.index, n + 1, t, k - 1, name, now, expiry);
        UnindexCons(index, x, Reaped(t, k - 1, now, expiry), name);
      } else {
        FinishIsReap(a + [x], index, n, t, k, name, now, expiry);
        assert a + [x] + Reap(t, k, now, expiry) == a + ([x] + Reap(t, k, now, expiry));
      }
    }
  }

  /** Delete the current row and its index entry when it has expired, count it, and step on. */
  method Visit<V>(c: Cursor<V>, index: Bucket<Key>, name: V -> Option<Key>, x: Entry<V>, count: nat, now: Time,
                  expiry: V -> Time)
    returns (e: Option<Entry<V>>, removed: nat)
    requires c.Valid() && index.Valid() && c.bucket as object != index && c.key == Some(x.key) && !c.ended
    modifies c, c.bucket, index
    ensures c.Valid() && index.Valid() && c.Returned(old(c.Remaining()), e)
    ensures Walk(c.bucket.rows, index.rows, removed)
         == Visited(Walk(old(c.bucket.rows), old(index.rows), count), x, name, now, expiry)
  {
    removed := count;
    if expiry(x.value) <= now {
      if name(x.value).Some? { index.Delete(name(x.value).value); }
      var _ := c.Delete();
      removed := count + 1;
    }
    e := c.Next();
  }

  /** Walk one bucket from its first row until the budget is spent, deleting expired rows and their index entries. */
  method ReapBucket<V>(b: Bucket<V>, index: Bucket<Key>, name: V -> Option<Key>, budget: nat, now: Time,
                       expiry: V -> Time)
    returns (removed: nat)
    requires b.Valid() && index.Valid() && b as object != index
    modifies b, index
    ensures b.Valid() && index.Valid()
    ensures b.rows == Reap(old(b.rows), budget, now, expiry)
    ensures index.rows == Unindex(old(index.rows), Reaped(old(b.rows), budget, now, expiry), name)
    ensures removed == |Reaped(old(b.rows), budget, now, expiry)|
  {
    var c := new Cursor(b, PAGE_SIZE);
    var e := c.First();
    removed := 0;
    ghost var left, k := b.rows, budget;
    ghost var end := Finish(Walk(b.rows, index.rows, 0), left, k, name, now, expiry);
    FinishIsReap([], index.rows, 0, b.rows, budget, name, now, expiry);
    assert [] + b.rows == b.rows;
    while e.Some? && removed < budget
      invariant c.Valid() && c.bucket == b && fresh(c) && index.Valid() && c.Returned(left, e) && removed + k == budget
      invariant Finish(Walk(b.rows, index.rows, removed), left, k, name, now, expiry) == end
      decreases |left|
    {
      var x := e.value;
      FinishStep(Walk(b.rows, index.rows, removed), left, k, name, now, expiry);
      e, removed := Visit(c, index, name, x, removed, now, expiry);
      left, k := left[1..], if Stale(x, now, expiry) then k - 1 else k;
    }
  }

  /** Seen as a map, a reaped bucket lost exactly the keys of the reaped rows. */
  lemma ReapedKeys<V>(rows: seq<Entry<V>>, budget: nat, now: Time, expiry: V -> Time)
    requires Ascending(rows)
    ensures var m, r, gone := MapOf(rows), MapOf(Reap(rows, budget, now, expiry)), Reaped(rows, budget, now, expiry);
            && (forall e :: e in gone ==> e.key in M.Gone(m, r) && m[e.key] == e.value)
            && (forall k :: k in M.Gone(m, r) ==> Entry(k, m[k]) in gone)
  {
    var kept, gone := Reap(rows, budget, now, expiry), Reaped(rows, budget, now, expiry);
    var m, r := MapOf(rows), MapOf(kept);
    ReapPartitions(rows, budget, now, expiry);
    forall e | e in gone ensures e.key in M.Gone(m, r) && m[e.key] == e.value {
      GoneFromMap(rows, kept, e);
    }
    forall k | k in M.Gone(m, r) ensures Entry(k, m[k]) in gone {
      MapOfKeys(rows, k);
      var i :| 0 <= i < |rows| && rows[i].key == k;
      MapOfAt(rows, i);
      if rows[i] in kept {
        var j :| 0 <= j < |kept| && kept[j] == rows[i];
        MapOfAt(kept, j);
      }
    }
  }

  /** And only expired records; the index names removed are those of the lost records. */
  lemma ReapMap<V>(rows: seq<Entry<V>>, budget: nat, now: Time, expiry: V -> Time, name: V -> Option<Key>)
    requires Ascending(rows)
    ensures var m, r := MapOf(rows), MapOf(Reap(rows, budget, now, expiry));
            && M.OnlyExpiredGone(m, r, now, expiry)
            && NamesOf(Reaped(rows, budget, now, expiry), name)
               == set k | k in M.Gone(m, r) && name(m[k]).Some? :: name(m[k]).value
  {
    ReapPartitions(rows, budget, now, expiry);
    M.SubtableMap(rows, Reap(rows, budget, now, expiry), now, expiry);
    ReapedKeys(rows, budget, now, expiry);
  }

  /** A budget that covers the expired rows takes them all. */
  lemma {:induction false} ReapTakesAll<V>(rows: seq<Entry<V>>, budget: nat, now: Time, expiry: V -> Time)
    requires |StaleRows(rows, now, expiry)| <= budget
    ensures forall e :: e in Reap(rows, budget, now, expiry) ==> !Stale(e, now, expiry)
  {
    if rows != [] && budget > 0 {
      ReapTakesAll(rows[1..], if Stale(rows[0], now, expiry) then budget - 1 else budget, now, expiry);
    } else if rows != [] {
      NoneStale(rows, now, expiry);
    }
  }

  lemma {:induction false} NoneStale<V>(rows: seq<Entry<V>>, now: Time, expiry: V -> Time)
    requires StaleRows(rows, now, expiry) == []
    ensures forall e :: e in rows ==> !Stale(e, now, expiry)
  {
    if rows != [] { NoneStale(rows[1..], now, expiry); }
  }

  /** So every expired key goes from the map. */
  lemma ReapAllMap<V>(rows: seq<Entry<V>>, budget: nat, now: Time, expiry: V -> Time)
    requires Ascending(rows) && |StaleRows(rows, now, expiry)| <= budget
    ensures var m, r := MapOf(rows), MapOf(Reap(rows, budget, now, expiry));
            M.Gone(m, r) == set k | k in m && expiry(m[k]) <= now
  {
    var kept := Reap(rows, budget, now, expiry);
    var m, r := MapOf(rows), MapOf(kept);
    ReapPartitions(rows, budget, now, expiry);
    M.SubtableMap(rows, kept, now, expiry);
    ReapTakesAll(rows, budget, now, expiry);
    forall k | k in r ensures now < expiry(r[k]) {
      MapOfKeys(kept, k);
      var j :| 0 <= j < |kept| && kept[j].key == k;
      MapOfAt(kept, j);
      assert !Stale(kept[j], now, expiry);
    }
    assert forall k :: k in r ==> m[k] == r[k];
  }

  lemma GoneFromMap<V>(rows: seq<Entry<V>>, kept: seq<Entry<V>>, e: Entry<V>)
    requires Ascending(rows) && Ascending(kept) && e in rows && e !in kept && forall x :: x in kept ==> x in rows
    ensures e.key in M.Gone(MapOf(rows), MapOf(kept)) && MapOf(rows)[e.key] == e.value
  {
    var i :| 0 <= i < |rows| && rows[i] == e;
    MapOfAt(rows, i);
    MapOfKeys(kept, e.key);
    LessIrreflexive(e.key);
    forall j | 0 <= j < |kept| ensures kept[j].key != e.key {
      assert kept[j] in rows && kept[j] != e;
      var k :| 0 <= k < |rows| && rows[k] == kept[j];
      assert k < i || i < k;
    }
  }
}
