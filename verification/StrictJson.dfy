/** Strict acceptance of JSON: no null anywhere and no repeated member name (section 4 of RFC 8259). */
module StrictJson {
  import opened Storage

  /** What the decoder delivers; commas and colons are its own business, and an error ends the stream. */
  datatype Token = Null | Scalar(literal: string) | Text(text: string)
    | OpenObject | CloseObject | OpenArray | CloseArray

  datatype Json = JNull | JScalar(literal: string) | JText(text: string)
    | JArray(items: seq<Json>) | JObject(members: seq<Member>)

  datatype Member = Member(name: string, value: Json)

  function Tokens(v: Json): (ts: seq<Token>)
    ensures ts != [] && !Closer(ts[0])
  {
    match v
    case JNull => [Null]
    case JScalar(x) => [Scalar(x)]
    case JText(x) => [Text(x)]
    case JArray(items) => [OpenArray] + ItemTokens(items) + [CloseArray]
    case JObject(members) => [OpenObject] + MemberTokens(members) + [CloseObject]
  }

  function ItemTokens(items: seq<Json>): seq<Token>
  {
    if items == [] then [] else Tokens(items[0]) + ItemTokens(items[1..])
  }

  function MemberTokens(ms: seq<Member>): seq<Token>
  {
    if ms == [] then [] else [Text(ms[0].name)] + Tokens(ms[0].value) + MemberTokens(ms[1..])
  }

  /** The values accepted, told from the value itself. */
  predicate Strict(v: Json)
  {
    match v
    case JNull => false
    case JArray(items) => forall i :: 0 <= i < |items| ==> Strict(items[i])
    case JObject(ms) =>
      && (forall i :: 0 <= i < |ms| ==> Strict(ms[i].value))
      && (forall i, j :: 0 <= i < j < |ms| ==> ms[i].name != ms[j].name)
    case _ => true
  }

  predicate Closer(t: Token) { t == CloseObject || t == CloseArray }

  /** Whether the decoder sees another element before the closing bracket. */
  predicate More(s: seq<Token>) { s != [] && !Closer(s[0]) }

  /** One strict value off the front of any stream, or refusal. */
  function Unique(s: seq<Token>): (r: Option<seq<Token>>)
    ensures r.Some? ==> |r.value| < |s|
    decreases |s|, 1
  {
    if s == [] then None
    else
      match s[0]
      case Null => None
      case Scalar(_) => Some(s[1..])
      case Text(_) => Some(s[1..])
      case OpenObject => Shut(Members(s[1..], {}))
      case OpenArray => Shut(Items(s[1..]))
      case _ => None
  }

  /** After the last element one more token, the closing bracket, must be there. */
  function Shut(s: Option<seq<Token>>): (r: Option<seq<Token>>)
    ensures r.Some? ==> s.Some? && |r.value| < |s.value|
  {
    if s.None? || s.value == [] then None else Some(s.value[1..])
  }

  function Members(s: seq<Token>, seen: set<string>): (r: Option<seq<Token>>)
    ensures r.Some? ==> |r.value| <= |s|
    decreases |s|, 0
  {
    if !More(s) then Some(s)
    else if !s[0].Text? || s[0].text in seen then None
    else
      var rest := Unique(s[1..]);
      if rest.None? then None else Members(rest.value, seen + {s[0].text})
  }

  function Items(s: seq<Token>): (r: Option<seq<Token>>)
    ensures r.Some? ==> |r.value| <= |s|
    decreases |s|, 2
  {
    if !More(s) then Some(s)
    else
      var rest := Unique(s);
      if rest.None? then None else Items(rest.value)
  }

  predicate AllStrict(items: seq<Json>) { forall i :: 0 <= i < |items| ==> Strict(items[i]) }

  predicate FreshMembers(ms: seq<Member>, seen: set<string>)
  {
    && (forall i :: 0 <= i < |ms| ==> Strict(ms[i].value) && ms[i].name !in seen)
    && (forall i, j :: 0 <= i < j < |ms| ==> ms[i].name != ms[j].name)
  }

  lemma AllStrictSplit(items: seq<Json>)
    requires items != []
    ensures AllStrict(items) <==> Strict(items[0]) && AllStrict(items[1..])
  {
    if Strict(items[0]) && AllStrict(items[1..]) {
      forall i | 0 <= i < |items| ensures Strict(items[i]) { assert i > 0 ==> items[i] == items[1..][i - 1]; }
    }
  }

  lemma FreshMembersSplit(ms: seq<Member>, seen: set<string>)
    requires ms != []
    ensures FreshMembers(ms, seen) <==>
              Strict(ms[0].value) && ms[0].name !in seen && FreshMembers(ms[1..], seen + {ms[0].name})
  {
    var t := ms[1..];
    if Strict(ms[0].value) && ms[0].name !in seen && FreshMembers(t, seen + {ms[0].name}) {
      forall i | 0 <= i < |ms| ensures Strict(ms[i].value) && ms[i].name !in seen {
        assert i > 0 ==> ms[i] == t[i - 1];
      }
      forall i, j | 0 <= i < j < |ms| ensures ms[i].name != ms[j].name {
        assert ms[j] == t[j - 1] && (i > 0 ==> ms[i] == t[i - 1]);
      }
    }
    if FreshMembers(ms, seen) {
      forall i | 0 <= i < |t| ensures Strict(t[i].value) && t[i].name !in seen + {ms[0].name} {
        assert t[i] == ms[i + 1];
      }
      forall i, j | 0 <= i < j < |t| ensures t[i].name != t[j].name { assert t[i] == ms[i + 1] && t[j] == ms[j + 1]; }
    }
  }

  /**
   * On the token stream of any JSON value, whatever follows it, exactly that value is consumed, and it is
   * accepted if and only if it holds no null and no object with a repeated name, at any depth.
   */
  lemma {:induction false} UniqueIff(v: Json, rest: seq<Token>)
    ensures Unique(Tokens(v) + rest) == if Strict(v) then Some(rest) else None
    decreases v, 1
  {
    var s := Tokens(v) + rest;
    match v
    case JArray(items) =>
      assert s[1..] == ItemTokens(items) + ([CloseArray] + rest);
      ItemsIff(items, rest);
      assert AllStrict(items) <==> Strict(v);
    case JObject(ms) =>
      assert s[1..] == MemberTokens(ms) + ([CloseObject] + rest);
      MembersIff(ms, {}, rest);
      assert FreshMembers(ms, {}) <==> Strict(v);
    case _ => assert s[1..] == rest;
  }

  lemma {:induction false} ItemsIff(items: seq<Json>, rest: seq<Token>)
    ensures Items(ItemTokens(items) + ([CloseArray] + rest))
            == if AllStrict(items) then Some([CloseArray] + rest) else None
    decreases items, 0
  {
    var tail := [CloseArray] + rest;
    if items == [] {
      assert ItemTokens(items) + tail == tail;
    } else {
      var s := ItemTokens(items) + tail;
      assert s == Tokens(items[0]) + (ItemTokens(items[1..]) + tail);
      UniqueIff(items[0], ItemTokens(items[1..]) + tail);
      ItemsIff(items[1..], rest);
      AllStrictSplit(items);
      assert More(s);
    }
  }

  lemma Regroup(x: Token, a: seq<Token>, b: seq<Token>, c: seq<Token>)
    ensures [x] + a + b + c == [x] + (a + (b + c))
  {
  }

  lemma FirstMember(ms: seq<Member>, tail: seq<Token>)
    requires ms != []
    ensures var s := MemberTokens(ms) + tail;
            s != [] && s[0] == Text(ms[0].name) && s[1..] == Tokens(ms[0].value) + (MemberTokens(ms[1..]) + tail)
  {
    Regroup(Text(ms[0].name), Tokens(ms[0].value), MemberTokens(ms[1..]), tail);
  }

  lemma MembersStep(s: seq<Token>, seen: set<string>)
    requires s != [] && s[0].Text?
    ensures Members(s, seen)
         == if s[0].text in seen || Unique(s[1..]).None? then None
            else Members(Unique(s[1..]).value, seen + {s[0].text})
  {
  }

  lemma {:induction false} MembersIff(ms: seq<Member>, seen: set<string>, rest: seq<Token>)
    ensures Members(MemberTokens(ms) + ([CloseObject] + rest), seen)
         == if FreshMembers(ms, seen) then Some([CloseObject] + rest) else None
    decreases ms, 0
  {
    var tail := [CloseObject] + rest;
    if ms == [] {
      assert MemberTokens(ms) + tail == tail;
    } else {
      var s, after := MemberTokens(ms) + tail, MemberTokens(ms[1..]) + tail;
      FirstMember(ms, tail);
      UniqueIff(ms[0].value, after);
      MembersIff(ms[1..], seen + {ms[0].name}, rest);
      FreshMembersSplit(ms, seen);
      MembersStep(s, seen);
    }
  }

  /** A whole document, with nothing after its one value, is accepted exactly when the value is strict. */
  lemma DocumentIff(v: Json, trailing: seq<Token>)
    ensures Unique(Tokens(v) + trailing) == Some([]) <==> Strict(v) && trailing == []
  {
    UniqueIff(v, trailing);
  }

  class Decoder {
    var stream: seq<Token>

    constructor (s: seq<Token>)
      ensures stream == s
    {
      stream := s;
    }

    method Next() returns (t: Option<Token>)
      modifies this
      ensures old(stream) == [] ==> t.None? && stream == []
      ensures old(stream) != [] ==> t == Some(old(stream[0])) && stream == old(stream)[1..]
    {
      if stream == [] { return None; }
      t := Some(stream[0]);
      stream := stream[1..];
    }

    /** The recursive check, reading one value and everything inside it. */
    method UniqueJson() returns (ok: bool)
      modifies this
      ensures ok <==> Unique(old(stream)).Some?
      ensures ok ==> stream == Unique(old(stream)).value
      ensures |stream| <= |old(stream)|
      decreases |stream|
    {
      ghost var s := stream;
      var t := Next();
      if t.None? || t.value == Null { return false; }
      match t.value
      case OpenObject =>
        var seen: set<string> := {};
        while More(stream)
          invariant |stream| < |s| && Unique(s) == Shut(Members(stream, seen))
          decreases |stream|
        {
          var key := Next();
          if !key.value.Text? || key.value.text in seen { return false; }
          seen := seen + {key.value.text};
          var inner := UniqueJson();
          if !inner { return false; }
        }
        var close := Next();
        ok := close.Some?;
      case OpenArray =>
        while More(stream)
          invariant |stream| < |s| && Unique(s) == Shut(Items(stream))
          decreases |stream|
        {
          var inner := UniqueJson();
          if !inner { return false; }
        }
        var close := Next();
        ok := close.Some?;
      case CloseObject => ok := false;
      case CloseArray => ok := false;
      case _ => ok := true;
    }
  }
}
