/** The keys under which the governance ledgers store their records, and why they never collide. */
module GovernanceKeys {
  import opened KeyOrder
  import A = Approvals
  import T = Trusts

  /* ---- One bucket for proposals and receipts ---- */

  function ProposalKey(id: string): Key { "proposal:" + id }

  /** The hash of an expectation is an arbitrary function. */
  function ReceiptKey(hash: A.Expectation -> string, want: A.Expectation): Key { "current:" + hash(want) }

  ghost predicate Injective(hash: A.Expectation -> string)
  {
    forall v, w :: hash(v) == hash(w) ==> v == w
  }

  /** Proposals and receipts share a bucket without meeting. */
  lemma KindsApart(hash: A.Expectation -> string, id: string, w: A.Expectation)
    ensures ProposalKey(id) != ReceiptKey(hash, w)
  {
    assert ProposalKey(id)[0] == 'p' && ReceiptKey(hash, w)[0] == 'c';
  }

  lemma SameProposal(a: string, b: string)
    ensures ProposalKey(a) == ProposalKey(b) ==> a == b
  {
    assert ProposalKey(a)[9..] == a && ProposalKey(b)[9..] == b;
  }

  lemma SameReceipt(hash: A.Expectation -> string, v: A.Expectation, w: A.Expectation)
    requires Injective(hash)
    ensures ReceiptKey(hash, v) == ReceiptKey(hash, w) ==> v == w
  {
    assert ReceiptKey(hash, v)[8..] == hash(v) && ReceiptKey(hash, w)[8..] == hash(w);
  }

  /* ---- History keys: trust ID, colon, revision in at least twenty digits ---- */

  function Digit(d: nat): char
    requires d < 10
  {
    "0123456789"[d]
  }

  function Decimal(n: nat): (s: string)
    ensures s != ""
  {
    if n < 10 then [Digit(n)] else Decimal(n / 10) + [Digit(n % 10)]
  }

  function Zeros(n: nat): string { seq(n, i => '0') }

  function Padded(n: nat): string
  {
    var s := Decimal(n);
    if |s| < 20 then Zeros(20 - |s|) + s else s
  }

  function HistoryKey(s: T.Slot): Key { s.id + ":" + Padded(s.revision) }

  predicate AllDigits(s: string)
  {
    forall i :: 0 <= i < |s| ==> '0' <= s[i] <= '9'
  }

  /** The number a digit string denotes. */
  function Value(s: string): nat
    requires AllDigits(s)
  {
    if s == "" then 0 else Value(s[..|s| - 1]) * 10 + (s[|s| - 1] as int - '0' as int)
  }

  lemma {:induction false} DecimalValue(n: nat)
    ensures AllDigits(Decimal(n)) && Value(Decimal(n)) == n
  {
    if n >= 10 {
      DecimalValue(n / 10);
      assert Decimal(n)[..|Decimal(n)| - 1] == Decimal(n / 10);
    }
  }

  lemma {:induction false} LeadingZeros(k: nat, s: string)
    requires AllDigits(s)
    ensures AllDigits(Zeros(k) + s) && Value(Zeros(k) + s) == Value(s)
  {
    var z := Zeros(k) + s;
    if s != "" {
      LeadingZeros(k, s[..|s| - 1]);
      assert z[..|z| - 1] == Zeros(k) + s[..|s| - 1];
    } else if k > 0 {
      LeadingZeros(k - 1, "");
      assert z[..|z| - 1] == Zeros(k - 1) + "";
    } else {
      assert z == "";
    }
  }

  lemma PaddedValue(n: nat)
    ensures AllDigits(Padded(n)) && Value(Padded(n)) == n
  {
    DecimalValue(n);
    if |Decimal(n)| < 20 { LeadingZeros(20 - |Decimal(n)|, Decimal(n)); }
  }

  /** Where the digits end the ID begins: two keys whose digit parts differ in length differ at a colon. */
  lemma SuffixLength(a: string, p: string, b: string, q: string)
    requires AllDigits(p) && AllDigits(q) && a + ":" + p == b + ":" + q
    ensures |p| <= |q|
  {
    assert (b + ":" + q)[|b|] == ':';
  }

  /** A history key names one trust and one revision. */
  lemma HistoryKeyInjective(s: T.Slot, t: T.Slot)
    ensures HistoryKey(s) == HistoryKey(t) ==> s == t
  {
    if HistoryKey(s) == HistoryKey(t) {
      var p, q := Padded(s.revision), Padded(t.revision);
      PaddedValue(s.revision);
      PaddedValue(t.revision);
      SuffixLength(s.id, p, t.id, q);
      SuffixLength(t.id, q, s.id, p);
      assert HistoryKey(s)[|s.id| + 1..] == p && HistoryKey(t)[|t.id| + 1..] == q;
      assert HistoryKey(s)[..|s.id|] == s.id && HistoryKey(t)[..|t.id|] == t.id;
    }
  }
}
