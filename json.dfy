/**
  The streaming JSON writer the pass is emitted through, modelled as an
  append-only sequence of tokens (one token per writer call), together with
  the tree of JSON values those tokens spell and a reader that recovers the
  tree from the tokens.
 */
module Json {
  import opened Wrappers

  /** One call on the streaming writer. */
  datatype Token =
    | PropName(name: string)
    | Str(text: string)
    | Null
    | Num(number: int)
    | Bool(flag: bool)
    /** Pre-serialised JSON text written verbatim (WriteRawValue). */
    | Raw(json: string)
    | StartObj
    | EndObj
    | StartArr
    | EndArr

  /** A JSON value as a tree. */
  datatype Json =
    | JNull
    | JBool(flag: bool)
    | JNum(number: int)
    | JStr(text: string)
    | JRaw(json: string)
    | JObject(members: seq<Member>)
    | JArray(items: seq<Json>)

  /** One `"key": value` pair of an object, in emission order. */
  datatype Member = Member(key: string, value: Json)

  /** A .NET string reference: `None` stands for null. */
  type NString = Option<string>

  predicate IsNullOrEmpty(s: NString) {
    s.None? || s.value == ""
  }

  /** What WriteStringValue emits: a JSON string, or JSON null for a null reference. */
  function StrOrNull(s: NString): Json {
    if s.Some? then JStr(s.value) else JNull
  }

  function Keys(ms: seq<Member>): (ks: seq<string>)
    ensures |ks| == |ms|
    ensures forall i :: 0 <= i < |ms| ==> ks[i] == ms[i].key
  {
    if ms == [] then [] else [ms[0].key] + Keys(ms[1..])
  }

  lemma {:induction false} KeysAppend(a: seq<Member>, b: seq<Member>)
    ensures Keys(a + b) == Keys(a) + Keys(b)
  {
    var l, r := Keys(a + b), Keys(a) + Keys(b);
    forall i | 0 <= i < |l|
      ensures l[i] == r[i]
    {
      if i < |a| {
        assert (a + b)[i] == a[i];
      } else {
        assert (a + b)[i] == b[i - |a|];
      }
    }
  }

  // ---------------------------------------------------------------------
  // Writing a tree as tokens

  function Encode(j: Json): seq<Token>
  {
    match j
    case JNull => [Null]
    case JBool(b) => [Bool(b)]
    case JNum(n) => [Num(n)]
    case JStr(s) => [Str(s)]
    case JRaw(text) => [Raw(text)]
    case JObject(ms) => [StartObj] + EncodeMembers(ms) + [EndObj]
    case JArray(xs) => [StartArr] + EncodeItems(xs) + [EndArr]
  }

  function EncodeMembers(ms: seq<Member>): seq<Token>
  {
    if ms == [] then [] else [PropName(ms[0].key)] + Encode(ms[0].value) + EncodeMembers(ms[1..])
  }

  function EncodeItems(xs: seq<Json>): seq<Token>
  {
    if xs == [] then [] else Encode(xs[0]) + EncodeItems(xs[1..])
  }

  lemma {:induction false} EncodeMembersAppend(a: seq<Member>, b: seq<Member>)
    ensures EncodeMembers(a + b) == EncodeMembers(a) + EncodeMembers(b)
  {
    if a != [] {
      assert (a + b)[1..] == a[1..] + b;
      EncodeMembersAppend(a[1..], b);
    } else {
      assert a + b == b;
    }
  }

  lemma {:induction false} EncodeItemsAppend(a: seq<Json>, b: seq<Json>)
    ensures EncodeItems(a + b) == EncodeItems(a) + EncodeItems(b)
  {
    if a != [] {
      assert (a + b)[1..] == a[1..] + b;
      EncodeItemsAppend(a[1..], b);
    } else {
      assert a + b == b;
    }
  }

  /** One more item written after `xs`, behind whatever `pre` the writer already holds. */
  lemma EncodeItemsSnoc(pre: seq<Token>, xs: seq<Json>, x: Json)
    ensures pre + EncodeItems(xs) + Encode(x) == pre + EncodeItems(xs + [x])
  {
    EncodeItemsAppend(xs, [x]);
    assert EncodeItems([x]) == Encode(x) + EncodeItems([]);
  }

  /** The same, for a loop over `xs` that has written its first `i` items. */
  lemma EncodeItemsPrefix(pre: seq<Token>, xs: seq<Json>, i: nat)
    requires i < |xs|
    ensures pre + EncodeItems(xs[..i]) + Encode(xs[i]) == pre + EncodeItems(xs[..i + 1])
  {
    assert xs[..i + 1] == xs[..i] + [xs[i]];
    EncodeItemsSnoc(pre, xs[..i], xs[i]);
  }

  /** A member is its name followed by its value, behind whatever `pre` the writer already holds. */
  lemma MemberTokens(pre: seq<Token>, name: string, j: Json)
    ensures pre + [PropName(name)] + Encode(j) == pre + EncodeMembers([Member(name, j)])
  {
    assert EncodeMembers([Member(name, j)]) == [PropName(name)] + Encode(j) + EncodeMembers([]);
  }

  /** A member whose value is an array, written as name, `[`, the items and `]`. */
  lemma ArrayMemberTokens(pre: seq<Token>, name: string, xs: seq<Json>)
    ensures pre + [PropName(name)] + [StartArr] + EncodeItems(xs) + [EndArr] == pre + EncodeMembers([Member(name, JArray(xs))])
  {
    MemberTokens(pre, name, JArray(xs));
  }

  /** An array left open after its name, its opening bracket and some of its items. */
  lemma OpenArrayTokens(pre: seq<Token>, name: string, items: seq<Token>)
    ensures pre + [PropName(name)] + [StartArr] + items == pre + ([PropName(name), StartArr] + items)
  {
  }

  /** An array written as its opening bracket, its items and its closing bracket. */
  lemma ArrayTokens(pre: seq<Token>, xs: seq<Json>)
    ensures pre + [StartArr] + EncodeItems(xs) + [EndArr] == pre + Encode(JArray(xs))
  {
  }

  /** An object written as its opening brace, its members and its closing brace. */
  lemma ObjectTokens(pre: seq<Token>, ms: seq<Member>)
    ensures pre + [StartObj] + EncodeMembers(ms) + [EndObj] == pre + Encode(JObject(ms))
  {
  }

  /** A member whose value is an object, written as name, `{`, the members and `}`. */
  lemma ObjectMemberTokens(pre: seq<Token>, name: string, ms: seq<Member>)
    ensures pre + [PropName(name)] + [StartObj] + EncodeMembers(ms) + [EndObj] == pre + EncodeMembers([Member(name, JObject(ms))])
  {
    MemberTokens(pre, name, JObject(ms));
  }

  // ---------------------------------------------------------------------
  // Reading tokens back as a tree

  /** Reads one value off the front of `ts`; returns it and the tokens after it. */
  function ReadValue(ts: seq<Token>): (r: Option<(Json, seq<Token>)>)
    ensures r.Some? ==> |r.value.1| < |ts|
    decreases |ts|, 0
  {
    if ts == [] then None
    else match ts[0]
      case Null => Some((JNull, ts[1..]))
      case Bool(b) => Some((JBool(b), ts[1..]))
      case Num(n) => Some((JNum(n), ts[1..]))
      case Str(s) => Some((JStr(s), ts[1..]))
      case Raw(text) => Some((JRaw(text), ts[1..]))
      case StartObj =>
        (match ReadMembers(ts[1..])
         case None => None
         case Some((ms, rest)) => Some((JObject(ms), rest)))
      case StartArr =>
        (match ReadItems(ts[1..])
         case None => None
         case Some((xs, rest)) => Some((JArray(xs), rest)))
      case _ => None
  }

  /** Reads `(PropName value)* EndObj`, consuming the closing token. */
  function ReadMembers(ts: seq<Token>): (r: Option<(seq<Member>, seq<Token>)>)
    ensures r.Some? ==> |r.value.1| < |ts|
    decreases |ts|, 1
  {
    if ts == [] then None
    else if ts[0] == EndObj then Some(([], ts[1..]))
    else if !ts[0].PropName? then None
    else match ReadValue(ts[1..])
      case None => None
      case Some((v, rest)) =>
        match ReadMembers(rest)
        case None => None
        case Some((ms, rest')) => Some(([Member(ts[0].name, v)] + ms, rest'))
  }

  /** Reads `value* EndArr`, consuming the closing token. */
  function ReadItems(ts: seq<Token>): (r: Option<(seq<Json>, seq<Token>)>)
    ensures r.Some? ==> |r.value.1| < |ts|
    decreases |ts|, 1
  {
    if ts == [] then None
    else if ts[0] == EndArr then Some(([], ts[1..]))
    else match ReadValue(ts)
      case None => None
      case Some((v, rest)) =>
        match ReadItems(rest)
        case None => None
        case Some((xs, rest')) => Some(([v] + xs, rest'))
  }

  /** The single value that `ts` spells out completely, if any. */
  function Decode(ts: seq<Token>): Option<Json>
  {
    match ReadValue(ts)
    case Some((j, rest)) => if rest == [] then Some(j) else None
    case None => None
  }

  lemma {:induction false} ReadEncode(j: Json, rest: seq<Token>)
    ensures ReadValue(Encode(j) + rest) == Some((j, rest))
    decreases j
  {
    var ts := Encode(j) + rest;
    match j
    case JObject(ms) =>
      ReadEncodeMembers(ms, rest);
      BracketedTokens(StartObj, EncodeMembers(ms), EndObj, rest);
    case JArray(xs) =>
      ReadEncodeItems(xs, rest);
      BracketedTokens(StartArr, EncodeItems(xs), EndArr, rest);
    case _ =>
      assert ts[0] == Encode(j)[0] && ts[1..] == rest;
  }

  lemma {:induction false} ReadEncodeMembers(ms: seq<Member>, rest: seq<Token>)
    ensures ReadMembers(EncodeMembers(ms) + [EndObj] + rest) == Some((ms, rest))
    decreases ms
  {
    if ms != [] {
      var m := ms[0];
      var tail := EncodeMembers(ms[1..]) + [EndObj] + rest;
      ReadEncode(m.value, tail);
      ReadEncodeMembers(ms[1..], rest);
      FirstMemberTokens(ms, rest);
      assert [Member(m.key, m.value)] + ms[1..] == ms;
    }
  }

  /** The written members open with the first one's name, then its value, then the rest. */
  lemma FirstMemberTokens(ms: seq<Member>, rest: seq<Token>)
    requires ms != []
    ensures var ts := EncodeMembers(ms) + [EndObj] + rest;
      && ts[0] == PropName(ms[0].key)
      && ts[1..] == Encode(ms[0].value) + (EncodeMembers(ms[1..]) + [EndObj] + rest)
  {
    ConsTokens(PropName(ms[0].key), Encode(ms[0].value), EncodeMembers(ms[1..]) + [EndObj] + rest);
    assert EncodeMembers(ms) + [EndObj] + rest
      == [PropName(ms[0].key)] + Encode(ms[0].value) + EncodeMembers(ms[1..]) + [EndObj] + rest;
  }

  /** A bracketed value followed by more tokens: its opening token, then what follows it. */
  lemma BracketedTokens(open: Token, inside: seq<Token>, close: Token, rest: seq<Token>)
    ensures var ts := [open] + inside + [close] + rest;
      ts[0] == open && ts[1..] == inside + [close] + rest
  {
  }

  lemma ConsTokens(first: Token, value: seq<Token>, after: seq<Token>)
    ensures var ts := [first] + value + after;
      ts[0] == first && ts[1..] == value + after
  {
  }

  lemma {:induction false} ReadEncodeItems(xs: seq<Json>, rest: seq<Token>)
    ensures ReadItems(EncodeItems(xs) + [EndArr] + rest) == Some((xs, rest))
    decreases xs
  {
    if xs != [] {
      var tail := EncodeItems(xs[1..]) + [EndArr] + rest;
      ReadEncode(xs[0], tail);
      ReadEncodeItems(xs[1..], rest);
      assert EncodeItems(xs) + [EndArr] + rest == Encode(xs[0]) + tail;
      assert [xs[0]] + xs[1..] == xs;
    }
  }

  /** Whatever tree is written, the tokens spell exactly that one value. */
  lemma DecodeEncode(j: Json)
    ensures Decode(Encode(j)) == Some(j)
  {
    ReadEncode(j, []);
    assert Encode(j) + [] == Encode(j);
  }

  // ---------------------------------------------------------------------
  // The writer

  /** Utf8JsonWriter: each call appends one token; nothing is ever taken back. */
  class JsonWriter {
    var tokens: seq<Token>

    constructor ()
      ensures tokens == []
    {
      tokens := [];
    }

    method WriteStartObject()
      modifies this
      ensures tokens == old(tokens) + [StartObj]
    {
      tokens := tokens + [StartObj];
    }

    method WriteEndObject()
      modifies this
      ensures tokens == old(tokens) + [EndObj]
    {
      tokens := tokens + [EndObj];
    }

    method WriteStartArray()
      modifies this
      ensures tokens == old(tokens) + [StartArr]
    {
      tokens := tokens + [StartArr];
    }

    method WriteEndArray()
      modifies this
      ensures tokens == old(tokens) + [EndArr]
    {
      tokens := tokens + [EndArr];
    }

    method WritePropertyName(name: string)
      modifies this
      ensures tokens == old(tokens) + [PropName(name)]
    {
      tokens := tokens + [PropName(name)];
    }

    /** A null reference is written as JSON null. */
    method WriteStringValue(s: NString)
      modifies this
      ensures tokens == old(tokens) + Encode(StrOrNull(s))
    {
      if s.Some? {
        tokens := tokens + [Str(s.value)];
      } else {
        tokens := tokens + [Null];
      }
    }

    method WriteNumberValue(n: int)
      modifies this
      ensures tokens == old(tokens) + [Num(n)]
    {
      tokens := tokens + [Num(n)];
    }

    method WriteBooleanValue(b: bool)
      modifies this
      ensures tokens == old(tokens) + [Bool(b)]
    {
      tokens := tokens + [Bool(b)];
    }

    method WriteRawValue(json: string)
      modifies this
      ensures tokens == old(tokens) + [Raw(json)]
    {
      tokens := tokens + [Raw(json)];
    }

    /**
      Stands for the Write method of an entity whose own serialiser is not
      part of this model (a field, a barcode, a location, a beacon): it
      appends the tokens of one value.
     */
    method WriteValue(j: Json)
      modifies this
      ensures tokens == old(tokens) + Encode(j)
    {
      tokens := tokens + Encode(j);
    }
  }

  // ---------------------------------------------------------------------
  // Writing a run of members one at a time: `ms` is the whole run and `i`
  // the position of the member written, so each step is proved against the
  // members still to come.

  lemma MemberStep(pre: seq<Token>, ms: seq<Member>, i: nat)
    requires i < |ms|
    ensures pre + [PropName(ms[i].key)] + Encode(ms[i].value) + EncodeMembers(ms[i + 1..]) == pre + EncodeMembers(ms[i..])
  {
    assert ms[i..][1..] == ms[i + 1..];
  }

  method WriteStringMember(w: JsonWriter, name: string, s: NString, ghost ms: seq<Member>, ghost i: nat)
    requires i < |ms| && ms[i] == Member(name, StrOrNull(s))
    modifies w
    ensures w.tokens + EncodeMembers(ms[i + 1..]) == old(w.tokens) + EncodeMembers(ms[i..])
  {
    MemberStep(w.tokens, ms, i);
    w.WritePropertyName(name);
    w.WriteStringValue(s);
  }

  method WriteNumberMember(w: JsonWriter, name: string, n: int, ghost ms: seq<Member>, ghost i: nat)
    requires i < |ms| && ms[i] == Member(name, JNum(n))
    modifies w
    ensures w.tokens + EncodeMembers(ms[i + 1..]) == old(w.tokens) + EncodeMembers(ms[i..])
  {
    MemberStep(w.tokens, ms, i);
    w.WritePropertyName(name);
    w.WriteNumberValue(n);
  }

  method WriteBoolMember(w: JsonWriter, name: string, b: bool, ghost ms: seq<Member>, ghost i: nat)
    requires i < |ms| && ms[i] == Member(name, JBool(b))
    modifies w
    ensures w.tokens + EncodeMembers(ms[i + 1..]) == old(w.tokens) + EncodeMembers(ms[i..])
  {
    MemberStep(w.tokens, ms, i);
    w.WritePropertyName(name);
    w.WriteBooleanValue(b);
  }
}
