/** A scene that meets the code's own identifier patterns, so that the failing run exists. */
module BrokerScene {
  import opened Storage
  import opened Models
  import opened Text
  import opened BrokerEvents
  import opened BrokerRuns
  import opened BrokerClock
  import S = BrokerService

  predicate Lower(c: char) { 'a' <= c <= 'z' }

  predicate Number(c: char) { '0' <= c <= '9' }

  predicate LowerOrNumber(c: char) { Lower(c) || Number(c) }

  predicate Hex(c: char) { Number(c) || 'a' <= c <= 'f' }

  predicate All(s: string, from: nat, ok: char -> bool) { forall i :: from <= i < |s| ==> ok(s[i]) }

  /** Eight, four, four, four and twelve hexadecimal digits with hyphens between. */
  predicate Uuid(s: string)
  {
    |s| == 36 && forall i :: 0 <= i < 36 ==>
      if i == 8 || i == 13 || i == 18 || i == 23 then s[i] == '-' else Hex(s[i]) || 'A' <= s[i] <= 'F'
  }

  predicate Prefixed(s: string, prefix: string, least: nat)
  {
    least <= |s| <= 63 && prefix < s && All(s, |prefix|, LowerOrNumber)
  }

  predicate Reference(s: string) { Prefixed(s, "ref_", 8) }

  predicate Provider(s: string) { Prefixed(s, "provider_", 10) }

  predicate Engine(s: string) { Prefixed(s, "ei_", 6) }

  predicate Organisation(s: string)
  {
    && 0 < |s| <= 128 && (LowerOrNumber(s[0]) || 'A' <= s[0] <= 'Z')
    && All(s, 1, c => LowerOrNumber(c) || 'A' <= c <= 'Z' || c == '.' || c == '_' || c == ':' || c == '-')
  }

  /** Words of lower-case letters and digits, joined by single underscores, the first starting with a letter. */
  predicate Estate(s: string)
  {
    && 3 <= |s| <= 63 && Lower(s[0]) && s[|s| - 1] != '_' && All(s, 1, c => LowerOrNumber(c) || c == '_')
    && forall i :: 0 <= i < |s| - 1 && s[i] == '_' ==> s[i + 1] != '_'
  }

  predicate Digested(s: string) { |s| == 71 && "sha256:" <= s && All(s, 7, Hex) }

  predicate Exact(s: string) { 0 < |s| <= 512 && Trimmed(s) }

  /** A secure URL of a bare host. */
  predicate Issuer(p: Protocol, s: string) { "https://" < s && All(s, 8, c => Lower(c) || c == '.') }

  predicate Route(s: string) { All(s, 0, c => c != '/' && c != '?' && c != '#' && c != '&' && c != '=' && c != ' ') }

  const GRAMMAR := Grammar(Uuid, Reference, Provider, Engine, Organisation, Estate, Digested, Exact, Exact, Issuer)

  function Repeat(c: char, n: nat): string { seq(n, i => c) }

  function Id(c: char): string { seq(36, i => if i == 8 || i == 13 || i == 18 || i == 23 then '-' else c) }

  const START: Time := UNIX_EPOCH + 10 * SECOND
  const HOST := "https://id.example"
  const FIRST_NONCE := "first-login-nonce"
  const SECOND_NONCE := "second-login-nonce"
  const CORRELATION := "correlation"
  const ASSERTION := "assertion"

  function HexDigit(n: nat): char
    requires n < 16
  {
    if n < 10 then ('0' as nat + n) as char else ('a' as nat + (n - 10)) as char
  }

  function Nibble(s: string, i: nat): nat
  {
    if i / 2 >= |s| then 0
    else if i % 2 == 0 then (s[i / 2] as nat) / 16 % 16 else (s[i / 2] as nat) % 16
  }

  /** A digest of the right form: the first 32 characters in hexadecimal. */
  function Digest(s: string): string { "sha256:" + seq(64, i requires 0 <= i < 64 => HexDigit(Nibble(s, i))) }

  /** Every token carries its own text as its nonce, except the assertion, which carries the correlation. */
  function Token(raw: string): BrokerToken
  {
    BrokerToken(O.IdToken(HOST, "subject", ["client"], "", "", if raw == ASSERTION then CORRELATION else raw,
                          START + 100 * SECOND, START, 10, 0, "acr", None), Digest(ASSERTION))
  }

  function Saml(raw: string): SamlAssertion { SamlAssertion(raw, "", "", "", "", "", 0, 0, 0, 0, 0, None, "", false) }

  function Flat(c: Configuration): string { "configuration" }

  function NameOnly(i: string, e: string, n: string): string { n }

  const ENV := Env(GRAMMAR, Route, Digest, Flat, Token, Saml, NameOnly, 200 * SECOND)
  const BINDING := Binding("provider_a", "ei_abc", "ref_conf", "ref_keys")
  const TRUST := Trust(Id('0'), Oidc, HOST, ["organisation"], ["estate"], BINDING, Active, "ref_assu", "ref_attr",
                       "ref_prov", 1, 1, 1, "ref_acti", Some(1), None)
  const SNAPSHOT := TrustSnapshot(TRUST, 1, Id('1'), START + 1000 * SECOND)
  const UPSTREAM := O.Configuration(Id('0'), Id('1'), "client", 1, BINDING, START + 1000 * SECOND)
  const CONFIG := Configuration(Id('0'), Id('1'), 1, BINDING, START + 1000 * SECOND, HOST, "client", "route", UPSTREAM,
                                "", "", true)
  const SCENE := Scene(ENV, SNAPSHOT, CONFIG, Login(Id('2'), FIRST_NONCE, FIRST_NONCE),
                       Login(Id('3'), SECOND_NONCE, SECOND_NONCE), "state-of-the-login", Repeat('s', 32), "verifier",
                       CORRELATION, ASSERTION, START)

  lemma TrustFits()
    ensures ValidateTrust(GRAMMAR, TRUST)
  {
    assert UniqueScope(["organisation"], Organisation);
    assert UniqueScope(["estate"], Estate);
    assert Reference("ref_conf") && Reference("ref_keys") && Reference("ref_assu") && Reference("ref_attr")
        && Reference("ref_prov") && Reference("ref_acti");
  }

  lemma TokenFits(raw: string, nonce: string)
    requires 0 < |raw| <= 32768 && nonce == Token(raw).token.nonce
    ensures TokenAccepted(ENV, raw, HOST, "client", START + 1000 * SECOND, Digest(nonce), START, START)
  {
    assert O.Authenticated(Token(raw).token) == START && O.UnixSeconds(START) == 10;
  }

  lemma DigestForm(s: string)
    ensures Digested(Digest(s))
  {
  }

  /** Strings that begin with different characters have different digests. */
  lemma DigestSeparates(s: string, t: string)
    requires s != "" && t != "" && s[0] < 128 as char && t[0] < 128 as char && s[0] != t[0]
    ensures Digest(s) != Digest(t)
  {
    var a, b := s[0] as nat, t[0] as nat;
    assert a / 16 % 16 != b / 16 % 16 || a % 16 != b % 16;
    assert Digest(s)[7] == HexDigit(Nibble(s, 0)) && Digest(s)[8] == HexDigit(Nibble(s, 1));
    assert Digest(t)[7] == HexDigit(Nibble(t, 0)) && Digest(t)[8] == HexDigit(Nibble(t, 1));
  }

  /** The digest tells all that matters in the scene apart. */
  lemma DigestsApart()
    ensures Digest(FIRST_NONCE) != Digest(SECOND_NONCE) && Digest(ASSERTION) != Digest(CORRELATION)
    ensures Digest(CORRELATION) != Digest(FIRST_NONCE) && Digest(CORRELATION) != Digest(SECOND_NONCE)
  {
    DigestSeparates(FIRST_NONCE, SECOND_NONCE);
    DigestSeparates(ASSERTION, CORRELATION);
    DigestSeparates(CORRELATION, FIRST_NONCE);
    DigestSeparates(CORRELATION, SECOND_NONCE);
  }

  lemma LoginsFit()
    ensures LoginFits(SCENE, SCENE.first) && LoginFits(SCENE, SCENE.second) && SCENE.first.id != SCENE.second.id
    ensures ENV.digest(SCENE.first.nonce) != ENV.digest(SCENE.second.nonce)
  {
    TokenFits(FIRST_NONCE, FIRST_NONCE);
    TokenFits(SECOND_NONCE, SECOND_NONCE);
    DigestForm(ASSERTION);
    DigestsApart();
    assert Id('2')[0] == '2' && Id('3')[0] == '3';
  }

  lemma AssertionFitsScene()
    ensures AssertionFits(SCENE)
  {
    TrustFits();
    TokenFits(ASSERTION, CORRELATION);
    DigestForm(ASSERTION);
  }

  /** The scene is one the code admits. */
  lemma SceneAdmitted()
    ensures Admitted(SCENE)
  {
    TrustFits();
    LoginsFit();
    AssertionFitsScene();
    DigestForm(Repeat('s', 32));
    DigestForm(ASSERTION);
    assert ConfigurationFits(ENV, SNAPSHOT, AskedOf(SCENE));
  }

  /** Each maintenance step drops what the walk over any buckets holding that ledger drops with a limit of 128. */
  ghost predicate Walked(ss: seq<Step>, ws: seq<World>)
    requires |ss| < |ws|
  {
    forall i, t :: 0 <= i < |ss| && ss[i].DoPrune? && S.Holds(t, ws[i].ledger) ==>
      S.Dropped(t, S.Batch(t, 128, ss[i].now)) == ss[i].drops
  }

  /**
   * So there is a run of the ledger, its maintenance as the code walks it, in which one assertion yields two events.
   */
  lemma ReplayHappens() returns (ss: seq<Step>, ws: seq<World>)
    ensures Run(ENV, ss, ws) && Walked(ss, ws) && !ClearBefore(ss, ws, |ss|)
    ensures var w := ws[|ss|];
            |w.commits| == 2 && w.commits[0].origin.assertion == w.commits[1].origin.assertion == ASSERTION
  {
    SceneAdmitted();
    ss, ws := UnsettledMaintenanceAllowsReplay(SCENE);
    forall i, t | 0 <= i < |ss| && ss[i].DoPrune? && S.Holds(t, ws[i].ledger)
      ensures S.Dropped(t, S.Batch(t, 128, ss[i].now)) == ss[i].drops
    {
      assert WholeBatch(ws[i], ss[i]);
      S.CoveredBatch(t, ws[i].ledger, 128, ss[i].now);
    }
  }
}
