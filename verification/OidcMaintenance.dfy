/** One bounded maintenance pass over a bucket, its persistent resume key, and why it is fair. */
module OidcMaintenance {
  import opened KeyOrder
  import opened Storage
  import opened Models

  /** How many leading rows a saved resume key has already passed. */
  function Passed<V>(rows: seq<Entry<V>>, resume: Option<Key>): (n: nat)
    ensures n <= |rows|
  {
    if resume.None? || rows == [] || Less(resume.value, rows[0].key) then 0
    else 1 + Passed(rows[1..], resume)
  }

  /** The rows that have not expired at `now`. */
  function Live<V>(rows: seq<Entry<V>>, now: Time, expiry: V -> Time): (live: seq<Entry<V>>)
    ensures |live| <= |rows|
    ensures forall i :: 0 <= i < |live| ==> live[i] in rows && now < expiry(live[i].value)
  {
    if rows == [] then []
    else if now < expiry(rows[0].value) then [rows[0]] + Live(rows[1..], now, expiry)
    else Live(rows[1..], now, expiry)
  }

  datatype Swept<V> = Swept(rows: seq<Entry<V>>, resume: Option<Key>)

  function ScanEnd<V>(rows: seq<Entry<V>>, resume: Option<Key>, limit: nat): (m: nat)
    ensures Passed(rows, resume) <= m <= |rows| && m - Passed(rows, resume) <= limit
  {
    var n := Passed(rows, resume);
    if |rows| - n <= limit then |rows| else n + limit
  }

  /** One call: at most `limit` rows after the resume key are looked at, the expired ones go. */
  function Sweep<V>(rows: seq<Entry<V>>, resume: Option<Key>, limit: nat, now: Time, expiry: V -> Time): Swept<V>
    requires limit > 0
  {
    var n, m := Passed(rows, resume), ScanEnd(rows, resume, limit);
    Swept(rows[..n] + Live(rows[n..m], now, expiry) + rows[m..],
          if m == |rows| then None else Some(rows[m - 1].key))
  }

  lemma {:induction false} PassedSelect<V>(rows: seq<Entry<V>>, k: Key)
    requires Ascending(rows)
    ensures Select(rows, Above(k)) == rows[Passed(rows, Some(k))..]
    ensures forall i :: 0 <= i < |rows| ==> (Less(k, rows[i].key) <==> Passed(rows, Some(k)) <= i)
  {
    var n := SelectIsSuffix(rows, Above(k));
    if rows != [] && !Less(k, rows[0].key) {
      PassedSelect(rows[1..], k);
      forall i | 0 <= i < |rows| ensures Less(k, rows[i].key) <==> Passed(rows, Some(k)) <= i {
        if i > 0 { assert rows[i] == rows[1..][i - 1]; }
      }
    } else if rows != [] {
      assert Admits(Above(k), rows[0].key);
      forall i | 0 <= i < |rows| ensures Less(k, rows[i].key) { assert Admits(Above(k), rows[i].key); }
    }
  }

  /** Seeking to the resume key and stepping off it when it is still there lands just above it. */
  lemma SeekThenStep<V>(rows: seq<Entry<V>>, k: Key)
    requires Ascending(rows)
    ensures var s := Select(rows, AtLeast(k));
            Select(rows, Above(k)) == if s != [] && s[0].key == k then s[1..] else s
  {
    var a := SelectIsSuffix(rows, AtLeast(k));
    if a < |rows| && rows[a].key == k {
      SelectNext(rows, AtLeast(k));
    } else {
      var b := SelectIsSuffix(rows, Above(k));
      assert a < |rows| ==> Admits(Above(k), rows[a].key);
      assert b < |rows| ==> Admits(AtLeast(k), rows[b].key);
    }
  }

  lemma {:induction false} LiveConcat<V>(a: seq<Entry<V>>, b: seq<Entry<V>>, now: Time, expiry: V -> Time)
    ensures Live(a + b, now, expiry) == Live(a, now, expiry) + Live(b, now, expiry)
  {
    if a == [] {
      assert a + b == b;
    } else {
      assert (a + b)[1..] == a[1..] + b;
      LiveConcat(a[1..], b, now, expiry);
    }
  }

  /** Pruning keeps the key order of the table and only shortens it. */
  lemma {:induction false} LiveAscending<V>(rows: seq<Entry<V>>, now: Time, expiry: V -> Time)
    requires Ascending(rows)
    ensures Ascending(Live(rows, now, expiry))
  {
    if rows != [] {
      LiveAscending(rows[1..], now, expiry);
      var t := Live(rows[1..], now, expiry);
      forall i | 0 <= i < |t| ensures Less(rows[0].key, t[i].key) { assert t[i] in rows[1..]; }
    }
  }

  lemma SweepAscending<V>(rows: seq<Entry<V>>, resume: Option<Key>, limit: nat, now: Time, expiry: V -> Time)
    requires Ascending(rows) && limit > 0
    ensures Ascending(Sweep(rows, resume, limit, now, expiry).rows)
    ensures |Sweep(rows, resume, limit, now, expiry).rows| <= |rows|
  {
    var n, m := Passed(rows, resume), ScanEnd(rows, resume, limit);
    LiveAscending(rows[n..m], now, expiry);
    ReplaceMiddleAscending(rows, n, m, Live(rows[n..m], now, expiry));
  }

  /** Where row `i` of a table whose rows n..m were thinned out stood before. */
  lemma OriginOf<V>(rows: seq<Entry<V>>, n: nat, m: nat, live: seq<Entry<V>>, i: nat) returns (j: nat)
    requires n <= m <= |rows| && i < n + |live| + (|rows| - m)
    requires forall e :: e in live ==> e in rows[n..m]
    ensures j < |rows| && rows[j] == (rows[..n] + live + rows[m..])[i]
    ensures j < m <==> i < n + |live|
    ensures j < n <==> i < n
    ensures i < n ==> j == i
    ensures i >= n + |live| ==> j == i - n - |live| + m
  {
    if i < n {
      j := i;
    } else if i < n + |live| {
      assert live[i - n] in rows[n..m];
      var d :| 0 <= d < m - n && rows[n..m][d] == live[i - n];
      j := n + d;
    } else {
      j := m + (i - n - |live|);
    }
  }

  lemma ReplaceMiddleAscending<V>(rows: seq<Entry<V>>, n: nat, m: nat, live: seq<Entry<V>>)
    requires Ascending(rows) && Ascending(live) && n <= m <= |rows|
    requires forall e :: e in live ==> e in rows[n..m]
    ensures Ascending(rows[..n] + live + rows[m..])
  {
    var r := rows[..n] + live + rows[m..];
    forall i, j | 0 <= i < j < |r| ensures Less(r[i].key, r[j].key) {
      if n <= i && j < n + |live| {
        assert r[i] == live[i - n] && r[j] == live[j - n];
      } else {
        var a := OriginOf(rows, n, m, live, i);
        var b := OriginOf(rows, n, m, live, j);
        assert a < b;
      }
    }
  }

  /** Safety: the surviving rows are rows of the table, and what disappeared had expired. */
  lemma SweepDropsOnlyExpired<V>(rows: seq<Entry<V>>, resume: Option<Key>, limit: nat, now: Time, expiry: V -> Time)
    requires Ascending(rows) && limit > 0
    ensures var after := Sweep(rows, resume, limit, now, expiry).rows;
            && (forall e :: e in after ==> e in rows)
            && (forall e :: e in rows && e !in after ==> expiry(e.value) <= now)
  {
    var n, m := Passed(rows, resume), ScanEnd(rows, resume, limit);
    var after := Sweep(rows, resume, limit, now, expiry).rows;
    forall e | e in rows && now < expiry(e.value) ensures e in after {
      var i :| 0 <= i < |rows| && rows[i] == e;
      if n <= i < m {
        assert rows[n..m][i - n] == e;
        LiveKeeps(rows[n..m], e, now, expiry);
      } else if i < n {
        assert after[i] == e;
      } else {
        assert rows[m..][i - m] == e;
      }
    }
    forall e | e in after ensures e in rows { assert e in rows[..n] || e in rows[n..m] || e in rows[m..]; }
  }

  lemma {:induction false} LiveKeeps<V>(rows: seq<Entry<V>>, e: Entry<V>, now: Time, expiry: V -> Time)
    requires e in rows && now < expiry(e.value)
    ensures e in Live(rows, now, expiry)
  {
    if rows[0] != e { LiveKeeps(rows[1..], e, now, expiry); }
  }

  /** Every row before the resume key expires later than `t`. */
  ghost predicate CleanBehind<V>(s: Swept<V>, t: Time, expiry: V -> Time)
  {
    forall i :: 0 <= i < Passed(s.rows, s.resume) ==> t < expiry(s.rows[i].value)
  }

  ghost predicate Clean<V>(rows: seq<Entry<V>>, t: Time, expiry: V -> Time)
  {
    forall i :: 0 <= i < |rows| ==> t < expiry(rows[i].value)
  }

  /** An interrupted call resumes right behind the rows it kept, `limit` rows further on. */
  lemma SweepAdvances<V>(s: Swept<V>, limit: nat, now: Time, expiry: V -> Time)
    requires Ascending(s.rows) && limit > 0
    requires Sweep(s.rows, s.resume, limit, now, expiry).resume.Some?
    ensures var n, m := Passed(s.rows, s.resume), ScanEnd(s.rows, s.resume, limit);
            var r := Sweep(s.rows, s.resume, limit, now, expiry);
            && m == n + limit
            && Passed(r.rows, r.resume) == n + |Live(s.rows[n..m], now, expiry)|
            && |r.rows| - Passed(r.rows, r.resume) == |s.rows| - m
  {
    var n, m := Passed(s.rows, s.resume), ScanEnd(s.rows, s.resume, limit);
    var r := Sweep(s.rows, s.resume, limit, now, expiry);
    var live := Live(s.rows[n..m], now, expiry);
    var k := r.resume.value;
    SweepAscending(s.rows, s.resume, limit, now, expiry);
    PassedSelect(r.rows, k);
    var p := n + |live|;
    forall i | 0 <= i < |r.rows| ensures Less(k, r.rows[i].key) <==> p <= i { AboveLastScanned(s.rows, n, m, live, i); }
    assert p < |r.rows| ==> Less(k, r.rows[p].key);
    assert p > 0 ==> !Less(k, r.rows[p - 1].key);
  }

  /** Of a thinned-out table, exactly the rows that were not scanned lie above the last one scanned. */
  lemma AboveLastScanned<V>(rows: seq<Entry<V>>, n: nat, m: nat, live: seq<Entry<V>>, i: nat)
    requires Ascending(rows) && n < m <= |rows| && i < n + |live| + (|rows| - m)
    requires forall e :: e in live ==> e in rows[n..m]
    ensures Less(rows[m - 1].key, (rows[..n] + live + rows[m..])[i].key) <==> n + |live| <= i
  {
    var k := rows[m - 1].key;
    LessIrreflexive(k);
    var j := OriginOf(rows, n, m, live, i);
    if j < m - 1 { LessAsymmetric(rows[j].key, k); }
  }

  lemma SweepKeepsClean<V>(s: Swept<V>, limit: nat, now: Time, t: Time, expiry: V -> Time)
    requires Ascending(s.rows) && limit > 0 && t <= now
    requires CleanBehind(s, t, expiry)
    ensures var r := Sweep(s.rows, s.resume, limit, now, expiry);
            if r.resume.None? then Clean(r.rows, t, expiry) else CleanBehind(r, t, expiry)
  {
    var n, m := Passed(s.rows, s.resume), ScanEnd(s.rows, s.resume, limit);
    var r := Sweep(s.rows, s.resume, limit, now, expiry);
    if r.resume.Some? { SweepAdvances(s, limit, now, expiry); }
    forall i | 0 <= i < n + |Live(s.rows[n..m], now, expiry)| ensures t < expiry(r.rows[i].value) {
      if i < n {
        assert r.rows[i] == s.rows[i];
      } else {
        assert r.rows[i] == Live(s.rows[n..m], now, expiry)[i - n];
      }
    }
  }

  /** A sequence of calls, one clock reading each, with no insertion between them. */
  ghost function Calls<V>(s: Swept<V>, limit: nat, nows: seq<Time>, expiry: V -> Time): Swept<V>
    requires limit > 0
    decreases |nows|
  {
    if nows == [] then s
    else Calls(Sweep(s.rows, s.resume, limit, nows[0], expiry), limit, nows[1..], expiry)
  }

  lemma {:induction false} CleanStaysClean<V>(s: Swept<V>, limit: nat, nows: seq<Time>, t: Time, expiry: V -> Time)
    requires Ascending(s.rows) && limit > 0 && Clean(s.rows, t, expiry)
    ensures Clean(Calls(s, limit, nows, expiry).rows, t, expiry)
    decreases |nows|
  {
    if nows != [] {
      var r := Sweep(s.rows, s.resume, limit, nows[0], expiry);
      SweepAscending(s.rows, s.resume, limit, nows[0], expiry);
      SweepDropsOnlyExpired(s.rows, s.resume, limit, nows[0], expiry);
      forall i | 0 <= i < |r.rows| ensures t < expiry(r.rows[i].value) { assert r.rows[i] in s.rows; }
      CleanStaysClean(r, limit, nows[1..], t, expiry);
    }
  }

  /** How many rows `calls` calls can look at. */
  function Reach(calls: nat, limit: nat): nat
  {
    if calls == 0 then 0 else limit + Reach(calls - 1, limit)
  }

  lemma {:induction false} ReachIsProduct(calls: nat, limit: nat)
    ensures Reach(calls, limit) == calls * limit
  {
    if calls > 0 { ReachIsProduct(calls - 1, limit); }
  }

  lemma {:induction false} ReachGrows(a: nat, b: nat, limit: nat)
    requires a <= b
    ensures Reach(a, limit) <= Reach(b, limit)
  {
    if a < b { ReachGrows(a, b - 1, limit); }
  }

  lemma PassAdvances<V>(s: Swept<V>, limit: nat, calls: nat, now: Time, t: Time, expiry: V -> Time)
    requires Ascending(s.rows) && limit > 0 && CleanBehind(s, t, expiry) && t <= now && calls > 0
    requires |s.rows| - Passed(s.rows, s.resume) <= Reach(calls, limit)
    ensures var r := Sweep(s.rows, s.resume, limit, now, expiry);
            && Ascending(r.rows)
            && if r.resume.None? then Clean(r.rows, t, expiry)
               else CleanBehind(r, t, expiry) && |r.rows| - Passed(r.rows, r.resume) <= Reach(calls - 1, limit)
  {
    SweepAscending(s.rows, s.resume, limit, now, expiry);
    SweepKeepsClean(s, limit, now, t, expiry);
    if Sweep(s.rows, s.resume, limit, now, expiry).resume.Some? { SweepAdvances(s, limit, now, expiry); }
  }

  /** A pass whose scanned part is clean finishes within `ceil(rest / limit)` calls. */
  lemma {:induction false} PassFinishes<V>(s: Swept<V>, limit: nat, nows: seq<Time>, t: Time, expiry: V -> Time)
    requires Ascending(s.rows) && limit > 0 && CleanBehind(s, t, expiry)
    requires forall i :: 0 <= i < |nows| ==> t <= nows[i]
    requires |s.rows| - Passed(s.rows, s.resume) <= Reach(|nows|, limit)
    ensures Clean(Calls(s, limit, nows, expiry).rows, t, expiry)
    decreases |nows|
  {
    if nows != [] {
      var r := Sweep(s.rows, s.resume, limit, nows[0], expiry);
      PassAdvances(s, limit, |nows|, nows[0], t, expiry);
      if r.resume.None? {
        CleanStaysClean(r, limit, nows[1..], t, expiry);
      } else {
        PassFinishes(r, limit, nows[1..], t, expiry);
      }
    }
  }

  /** From any resume key: finish the interrupted pass, then one whole pass. */
  lemma {:induction false} TwoPasses<V>(s: Swept<V>, limit: nat, first: nat, second: nat, nows: seq<Time>, t: Time,
                                        expiry: V -> Time)
    requires Ascending(s.rows) && limit > 0 && |nows| == first + second
    requires forall i :: 0 <= i < |nows| ==> t <= nows[i]
    requires 0 < first && |s.rows| - Passed(s.rows, s.resume) <= Reach(first, limit) && |s.rows| <= Reach(second, limit)
    ensures Clean(Calls(s, limit, nows, expiry).rows, t, expiry)
    decreases |nows|
  {
    var r := Sweep(s.rows, s.resume, limit, nows[0], expiry);
    SweepAscending(s.rows, s.resume, limit, nows[0], expiry);
    if r.resume.None? {
      ReachGrows(second, |nows[1..]|, limit);
      PassFinishes(r, limit, nows[1..], t, expiry);
    } else {
      SweepAdvances(s, limit, nows[0], expiry);
      assert first > 1;
      TwoPasses(r, limit, first - 1, second, nows[1..], t, expiry);
    }
  }

  function CeilDiv(n: nat, d: nat): nat
    requires d > 0
  {
    (n + d - 1) / d
  }

  lemma CeilDivCovers(n: nat, d: nat)
    requires d > 0
    ensures n <= CeilDiv(n, d) * d
    ensures n > 0 ==> CeilDiv(n, d) > 0
  {
    assert (n + d - 1) == CeilDiv(n, d) * d + (n + d - 1) % d;
  }

  /** Twice as many calls as cover the bucket leave nothing that expires by `t`. */
  lemma CallsClean<V>(rows: seq<Entry<V>>, resume: Option<Key>, limit: nat, c: nat, nows: seq<Time>, t: Time,
                      expiry: V -> Time)
    requires Ascending(rows) && limit > 0 && |rows| <= c * limit && 2 * c <= |nows|
    requires forall i :: 0 <= i < |nows| ==> t <= nows[i]
    ensures Clean(Calls(Swept(rows, resume), limit, nows, expiry).rows, t, expiry)
  {
    if rows == [] {
      CleanStaysClean(Swept(rows, resume), limit, nows, t, expiry);
    } else {
      ReachIsProduct(c, limit);
      ReachGrows(c, |nows| - c, limit);
      assert c > 0;
      TwoPasses(Swept(rows, resume), limit, c, |nows| - c, nows, t, expiry);
    }
  }

  /**
   * Fairness. From any saved resume key, with the clock at or past `t` in every call and no
   * insertion, `2 * ceil(n / limit)` calls or more remove every record of an n-row bucket that expires by `t`.
   */
  lemma PruningIsFair<V>(rows: seq<Entry<V>>, resume: Option<Key>, limit: nat, nows: seq<Time>, t: Time,
                         expiry: V -> Time)
    requires Ascending(rows) && limit > 0
    requires 2 * CeilDiv(|rows|, limit) <= |nows|
    requires forall i :: 0 <= i < |nows| ==> t <= nows[i]
    ensures Clean(Calls(Swept(rows, resume), limit, nows, expiry).rows, t, expiry)
  {
    CeilDivCovers(|rows|, limit);
    CallsClean(rows, resume, limit, CeilDiv(|rows|, limit), nows, t, expiry);
  }

  /** The rows one call looks at. */
  function Scanned<V>(rows: seq<Entry<V>>, resume: Option<Key>, limit: nat): seq<Entry<V>>
  {
    rows[Passed(rows, resume)..ScanEnd(rows, resume, limit)]
  }

  /** The table once `k` rows after the first `n` have been dealt with. */
  ghost function Partly<V>(rows: seq<Entry<V>>, n: nat, k: nat, now: Time, expiry: V -> Time): seq<Entry<V>>
    requires n + k <= |rows|
  {
    rows[..n] + Live(rows[n..n + k], now, expiry) + rows[n + k..]
  }

  lemma DropMiddle<V>(a: seq<Entry<V>>, x: Entry<V>, b: seq<Entry<V>>)
    requires Ascending(a + [x] + b)
    ensures Without(a + [x] + b, x.key) == a + b
  {
    var r := a + [x] + b;
    assert r[|a|] == x;
    WithoutAt(r, |a|);
    assert r[..|a|] == a && r[|a| + 1..] == b;
  }

  /** The row dealt with next stands between the survivors and the rows still to come. */
  lemma PartlySplit<V>(rows: seq<Entry<V>>, n: nat, k: nat, now: Time, expiry: V -> Time)
    requires Ascending(rows) && n + k < |rows|
    ensures var head, x, tail := rows[..n] + Live(rows[n..n + k], now, expiry), rows[n + k], rows[n + k + 1..];
            Partly(rows, n, k, now, expiry) == head + [x] + tail && Ascending(head + [x] + tail)
  {
    var live := Live(rows[n..n + k], now, expiry);
    assert rows[n + k..] == [rows[n + k]] + rows[n + k + 1..];
    assert Partly(rows, n, k, now, expiry) == rows[..n] + live + [rows[n + k]] + rows[n + k + 1..];
    LiveAscending(rows[n..n + k], now, expiry);
    ReplaceMiddleAscending(rows, n, n + k, live);
  }

  lemma PartlyStep<V>(rows: seq<Entry<V>>, n: nat, k: nat, now: Time, expiry: V -> Time)
    requires Ascending(rows) && n + k < |rows|
    ensures Partly(rows, n, k + 1, now, expiry)
         == if now < expiry(rows[n + k].value) then Partly(rows, n, k, now, expiry)
            else Without(Partly(rows, n, k, now, expiry), rows[n + k].key)
  {
    var live := Live(rows[n..n + k], now, expiry);
    var x, head, tail := rows[n + k], rows[..n] + live, rows[n + k + 1..];
    PartlySplit(rows, n, k, now, expiry);
    LiveStep(rows, n, k, now, expiry);
    if now < expiry(x.value) {
      assert rows[..n] + (live + [x]) + tail == head + [x] + tail;
    } else {
      DropMiddle(head, x, tail);
      assert live + [] == live;
    }
  }

  /** Position a fresh cursor on the first row after the resume key. */
  method Reposition<V>(c: Cursor<V>, resume: Option<Key>) returns (e: Option<Entry<V>>)
    requires c.Valid()
    modifies c
    ensures c.Valid()
    ensures c.Returned(c.bucket.rows[Passed(c.bucket.rows, resume)..], e)
  {
    var rows := c.bucket.rows;
    if resume.None? {
      e := c.First();
      assert rows[0..] == rows;
    } else {
      e := c.Seek(resume.value);
      SeekThenStep(rows, resume.value);
      PassedSelect(rows, resume.value);
      if e.Some? && e.value.key == resume.value { e := c.Next(); }
    }
  }

  /** The table after deleting the expired rows of `todo` one by one. */
  ghost function Drop<V>(rows: seq<Entry<V>>, todo: seq<Entry<V>>, now: Time, expiry: V -> Time): seq<Entry<V>>
    decreases |todo|
  {
    if todo == [] then rows
    else Drop(if now < expiry(todo[0].value) then rows else Without(rows, todo[0].key), todo[1..], now, expiry)
  }

  lemma {:induction false} DropIsPartly<V>(rows: seq<Entry<V>>, n: nat, k: nat, m: nat, now: Time, expiry: V -> Time)
    requires Ascending(rows) && n + k <= m <= |rows|
    ensures Drop(Partly(rows, n, k, now, expiry), rows[n + k..m], now, expiry) == Partly(rows, n, m - n, now, expiry)
    decreases m - k
  {
    if n + k < m {
      var todo := rows[n + k..m];
      assert todo[0] == rows[n + k] && todo[1..] == rows[n + (k + 1)..m];
      PartlyStep(rows, n, k, now, expiry);
      DropStep(Partly(rows, n, k, now, expiry), todo, now, expiry);
      DropIsPartly(rows, n, k + 1, m, now, expiry);
    }
  }

  lemma DropStep<V>(rows: seq<Entry<V>>, todo: seq<Entry<V>>, now: Time, expiry: V -> Time)
    requires todo != []
    ensures Drop(rows, todo, now, expiry)
         == Drop(if now < expiry(todo[0].value) then rows else Without(rows, todo[0].key), todo[1..], now, expiry)
  {
  }

  lemma SweepByDeletes<V>(rows: seq<Entry<V>>, resume: Option<Key>, limit: nat, now: Time, expiry: V -> Time)
    requires Ascending(rows) && limit > 0
    ensures var scan := Scanned(rows, resume, limit);
            var r := Sweep(rows, resume, limit, now, expiry);
            && Drop(rows, scan, now, expiry) == r.rows
            && |rows| - |r.rows| == |scan| - |Live(scan, now, expiry)|
  {
    var n, m := Passed(rows, resume), ScanEnd(rows, resume, limit);
    assert Partly(rows, n, 0, now, expiry) == rows;
    DropIsPartly(rows, n, 0, m, now, expiry);
  }

  lemma SweepResumesAtLast<V>(rows: seq<Entry<V>>, resume: Option<Key>, limit: nat, now: Time, expiry: V -> Time)
    requires limit > 0
    ensures var scan := Scanned(rows, resume, limit);
            var whole := |scan| == |rows| - Passed(rows, resume);
            Sweep(rows, resume, limit, now, expiry).resume == if whole then None else LastKey(scan)
  {
  }

  function LastKey<V>(rows: seq<Entry<V>>): Option<Key>
  {
    if rows == [] then None else Some(rows[|rows| - 1].key)
  }

  /** Delete the current row when it has expired, then step on. */
  method Visit<V>(c: Cursor<V>, x: Entry<V>, now: Time, expiry: V -> Time) returns (e: Option<Entry<V>>)
    requires c.Valid() && c.key == Some(x.key) && !c.ended
    modifies c, c.bucket
    ensures c.Valid()
    ensures c.bucket.rows == if now < expiry(x.value) then old(c.bucket.rows) else Without(old(c.bucket.rows), x.key)
    ensures c.Returned(old(c.Remaining()), e)
  {
    if expiry(x.value) <= now { var _ := c.Delete(); }
    e := c.Next();
  }

  ghost predicate AllDated<V>(rows: seq<Entry<V>>, expiry: V -> Time)
  {
    forall i :: 0 <= i < |rows| ==> expiry(rows[i].value) != 0
  }

  /** The scanning loop, from a cursor standing on the first of `rest`; `scan` are the rows within the limit. */
  method Scan<V>(c: Cursor<V>, at: Option<Entry<V>>, limit: nat, now: Time, expiry: V -> Time,
                 ghost rest: seq<Entry<V>>, ghost scan: seq<Entry<V>>)
    returns (ok: bool, more: bool, last: Option<Key>, deleted: nat)
    requires c.Valid() && c.Returned(rest, at)
    requires scan <= rest && (|scan| == limit || (scan == rest && |scan| < limit))
    modifies c, c.bucket
    ensures c.bucket.Valid()
    ensures ok <==> AllDated(scan, expiry)
    ensures ok ==> c.bucket.rows == Drop(old(c.bucket.rows), scan, now, expiry)
    ensures ok ==> deleted == |scan| - |Live(scan, now, expiry)|
    ensures ok ==> last == LastKey(scan) && (more <==> |scan| < |rest|)
  {
    var e, scanned := at, 0;
    ghost var left, todo := rest, scan;
    last, deleted := None, 0;
    while e.Some? && scanned < limit
      invariant c.Valid() && c.Returned(left, e) && todo <= left
      invariant scanned + |todo| == |scan| && scanned + |left| == |rest|
      invariant Drop(c.bucket.rows, todo, now, expiry) == Drop(old(c.bucket.rows), scan, now, expiry)
      invariant deleted + |todo| - |Live(todo, now, expiry)| == |scan| - |Live(scan, now, expiry)|
      invariant AllDated(scan, expiry) <==> AllDated(todo, expiry)
      invariant LastKey(scan) == if todo == [] then last else LastKey(todo)
      decreases limit - scanned
    {
      var x := e.value;
      last := Some(x.key);
      ScanTail(left, todo, expiry);
      if expiry(x.value) == 0 { return false, false, None, 0; }
      e := Visit(c, x, now, expiry);
      if expiry(x.value) <= now { deleted := deleted + 1; }
      left, todo := left[1..], todo[1..];
      scanned := scanned + 1;
    }
    ok, more := true, e.Some?;
  }

  /**
   * The maintenance loop over one bucket. A scanned record without an expiry fails the whole
   * transaction, which then leaves the table as it was.
   */
  method PruneBucket<V>(b: Bucket<V>, resume: Option<Key>, limit: nat, now: Time, expiry: V -> Time)
    returns (ok: bool, next: Option<Key>, deleted: nat)
    requires b.Valid() && limit > 0
    modifies b
    ensures b.Valid()
    ensures ok <==> AllDated(Scanned(old(b.rows), resume, limit), expiry)
    ensures ok ==> b.rows == Sweep(old(b.rows), resume, limit, now, expiry).rows
    ensures ok ==> next == Sweep(old(b.rows), resume, limit, now, expiry).resume
    ensures ok ==> deleted == |old(b.rows)| - |b.rows|
    ensures ok ==> OnlyExpiredGone(old(b.Contents()), b.Contents(), now, expiry)
    ensures !ok ==> b.rows == old(b.rows)
  {
    var rows := b.rows;
    ghost var rest, scan := rows[Passed(rows, resume)..], Scanned(rows, resume, limit);
    SweepByDeletes(rows, resume, limit, now, expiry);
    SweepResumesAtLast(rows, resume, limit, now, expiry);
    assert scan == rest[..|scan|];
    var c := new Cursor(b, PAGE_SIZE);
    var e := Reposition(c, resume);
    var more, last;
    ok, more, last, deleted := Scan(c, e, limit, now, expiry, rest, scan);
    if ok { SweepMap(rows, resume, limit, now, expiry); } else { b.rows := rows; }
    next := if more then last else None;
  }

  lemma ScanTail<V>(rest: seq<Entry<V>>, todo: seq<Entry<V>>, expiry: V -> Time)
    requires todo != [] && todo <= rest
    ensures todo[0] == rest[0] && todo[1..] <= rest[1..]
    ensures AllDated(todo, expiry) <==> expiry(todo[0].value) != 0 && AllDated(todo[1..], expiry)
    ensures |todo| > 1 ==> LastKey(todo[1..]) == LastKey(todo)
  {
    if AllDated(todo[1..], expiry) && expiry(todo[0].value) != 0 {
      forall i | 0 <= i < |todo| ensures expiry(todo[i].value) != 0 {
        if i > 0 { assert todo[i] == todo[1..][i - 1]; }
      }
    }
  }

  lemma LiveStep<V>(rows: seq<Entry<V>>, n: nat, k: nat, now: Time, expiry: V -> Time)
    requires n + k < |rows|
    ensures Live(rows[n..n + k + 1], now, expiry)
         == Live(rows[n..n + k], now, expiry) + if now < expiry(rows[n + k].value) then [rows[n + k]] else []
  {
    assert rows[n..n + k + 1] == rows[n..n + k] + [rows[n + k]];
    LiveConcat(rows[n..n + k], [rows[n + k]], now, expiry);
  }

  /** The removed part of a map. */
  ghost function Gone<V>(before: map<Key, V>, after: map<Key, V>): set<Key> { before.Keys - after.Keys }

  /** `after` is `before` without some records that had expired. */
  ghost predicate OnlyExpiredGone<V>(before: map<Key, V>, after: map<Key, V>, now: Time, expiry: V -> Time)
  {
    && after == before - Gone(before, after)
    && forall k :: k in before && k !in after ==> expiry(before[k]) <= now
  }

  lemma SubtableMap<V>(rows: seq<Entry<V>>, after: seq<Entry<V>>, now: Time, expiry: V -> Time)
    requires Ascending(rows) && Ascending(after)
    requires forall e :: e in after ==> e in rows
    requires forall e :: e in rows && e !in after ==> expiry(e.value) <= now
    ensures OnlyExpiredGone(MapOf(rows), MapOf(after), now, expiry)
  {
    var m, r := MapOf(rows), MapOf(after);
    forall k | k in r ensures k in m && r[k] == m[k] {
      MapOfKeys(after, k);
      var i :| 0 <= i < |after| && after[i].key == k;
      MapOfAt(after, i);
      assert after[i] in rows;
      var j :| 0 <= j < |rows| && rows[j] == after[i];
      MapOfAt(rows, j);
    }
    forall k | k in m && k !in r ensures expiry(m[k]) <= now {
      MapOfKeys(rows, k);
      var j :| 0 <= j < |rows| && rows[j].key == k;
      MapOfAt(rows, j);
      MapOfKeys(after, k);
      assert rows[j] in rows && rows[j] !in after;
    }
  }

  /** Seen as a map, a sweep removes a set of expired records and touches nothing else. */
  lemma SweepMap<V>(rows: seq<Entry<V>>, resume: Option<Key>, limit: nat, now: Time, expiry: V -> Time)
    requires Ascending(rows) && limit > 0
    ensures OnlyExpiredGone(MapOf(rows), MapOf(Sweep(rows, resume, limit, now, expiry).rows), now, expiry)
  {
    SweepAscending(rows, resume, limit, now, expiry);
    SweepDropsOnlyExpired(rows, resume, limit, now, expiry);
    SubtableMap(rows, Sweep(rows, resume, limit, now, expiry).rows, now, expiry);
  }
}
