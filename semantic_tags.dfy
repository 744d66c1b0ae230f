/**
  Semantic tags: machine-readable annotations written into the pass's
  `semantics` object. Each tag class binds one wire key to a value; the
  scalar classes collapse into the constructors of one datatype, and the
  Wi-Fi tag is the composite one, an array of network objects.
 */
module SemanticTags {
  import opened Wrappers
  import opened Json
  import opened DateTimes
  import opened Text
  import JsonWriterExtensions

  // ---------------------------------------------------------------------
  // Wi-Fi networks

  /** WifiNetwork(ssid, password): both are written as given, null included. */
  datatype WifiNetwork = WifiNetwork(ssid: NString, password: NString)

  /** The object WifiNetwork.WriteValue emits. */
  function NetworkJson(n: WifiNetwork): Json {
    JObject([Member("ssid", StrOrNull(n.ssid)), Member("password", StrOrNull(n.password))])
  }

  /** One network object per network, in the order given. */
  function NetworksJson(ns: seq<WifiNetwork>): (items: seq<Json>)
    ensures |items| == |ns|
  {
    if ns == [] then [] else [NetworkJson(ns[0])] + NetworksJson(ns[1..])
  }

  /** The value WifiAccess.WriteValue emits: an array, empty when there are no networks. */
  function WifiAccessJson(ns: seq<WifiNetwork>): Json {
    JArray(NetworksJson(ns))
  }

  lemma {:induction false} NetworksJsonAt(ns: seq<WifiNetwork>, i: nat)
    requires i < |ns|
    ensures NetworksJson(ns)[i] == NetworkJson(ns[i])
  {
    if i > 0 {
      NetworksJsonAt(ns[1..], i - 1);
    }
  }

  lemma {:induction false} NetworksJsonSnoc(ns: seq<WifiNetwork>, n: WifiNetwork)
    ensures NetworksJson(ns + [n]) == NetworksJson(ns) + [NetworkJson(n)]
  {
    if ns == [] {
      assert ns + [n] == [n];
    } else {
      assert (ns + [n])[1..] == ns[1..] + [n];
      NetworksJsonSnoc(ns[1..], n);
    }
  }

  lemma EncodeNetworksPrefix(pre: seq<Token>, ns: seq<WifiNetwork>, i: nat)
    requires i < |ns|
    ensures pre + EncodeItems(NetworksJson(ns[..i])) + Encode(NetworkJson(ns[i])) == pre + EncodeItems(NetworksJson(ns[..i + 1]))
  {
    assert ns[..i + 1] == ns[..i] + [ns[i]];
    NetworksJsonSnoc(ns[..i], ns[i]);
    EncodeItemsSnoc(pre, NetworksJson(ns[..i]), NetworkJson(ns[i]));
  }

  /** WifiNetwork.WriteValue: one balanced object, `ssid` then `password`. */
  method WriteNetwork(n: WifiNetwork, w: JsonWriter)
    modifies w
    ensures w.tokens == old(w.tokens) + Encode(NetworkJson(n))
  {
    ghost var t0 := w.tokens;
    ghost var ms := NetworkJson(n).members;
    w.WriteStartObject();
    ghost var pre := w.tokens;
    WriteStringMember(w, "ssid", n.ssid, ms, 0);
    WriteStringMember(w, "password", n.password, ms, 1);
    assert ms[2..] == [] && ms[0..] == ms;
    assert w.tokens + [] == w.tokens;
    w.WriteEndObject();
    ObjectTokens(t0, ms);
  }

  /** WifiAccess.WriteValue: an array holding each network's object in turn. */
  method WriteWifiAccess(networks: seq<WifiNetwork>, w: JsonWriter)
    modifies w
    ensures w.tokens == old(w.tokens) + Encode(WifiAccessJson(networks))
  {
    ghost var t0 := w.tokens;
    w.WriteStartArray();
    ghost var pre := w.tokens;
    var i := 0;
    while i < |networks|
      invariant 0 <= i <= |networks|
      invariant w.tokens == pre + EncodeItems(NetworksJson(networks[..i]))
    {
      WriteNetwork(networks[i], w);
      EncodeNetworksPrefix(pre, networks, i);
      i := i + 1;
    }
    w.WriteEndArray();
    assert networks[..i] == networks;
    ArrayTokens(t0, NetworksJson(networks));
  }

  /**
    What a reader finds in the written Wi-Fi value: an array with one element
    per network, in order, each an object with exactly the keys `ssid` and
    `password` holding that network's strings.
   */
  lemma WifiAccessReadsBack(ns: seq<WifiNetwork>)
    ensures Decode(Encode(WifiAccessJson(ns))).Some?
    ensures var j := Decode(Encode(WifiAccessJson(ns))).value;
      && j.JArray? && |j.items| == |ns|
      && forall i :: 0 <= i < |ns| ==>
           && j.items[i].JObject?
           && Keys(j.items[i].members) == ["ssid", "password"]
           && j.items[i].members[0].value == StrOrNull(ns[i].ssid)
           && j.items[i].members[1].value == StrOrNull(ns[i].password)
  {
    DecodeEncode(WifiAccessJson(ns));
    forall i | 0 <= i < |ns|
      ensures NetworksJson(ns)[i] == NetworkJson(ns[i])
    {
      NetworksJsonAt(ns, i);
    }
  }

  /** Two networks: the first element holds "wifi-entrance" and "834AX5?15". */
  lemma WifiAccessExample()
    ensures var ns := [WifiNetwork(Some("wifi-entrance"), Some("834AX5?15")), WifiNetwork(Some("wifi-main-hall"), Some("187r!16iK"))];
      && Decode(Encode(WifiAccessJson(ns))).Some?
      && var j := Decode(Encode(WifiAccessJson(ns))).value;
      && |j.items| == 2
      && j.items[0].members[0] == Member("ssid", JStr("wifi-entrance"))
      && j.items[0].members[1] == Member("password", JStr("834AX5?15"))
  {
    var ns := [WifiNetwork(Some("wifi-entrance"), Some("834AX5?15")), WifiNetwork(Some("wifi-main-hall"), Some("187r!16iK"))];
    WifiAccessReadsBack(ns);
  }

  // ---------------------------------------------------------------------
  // The tag table

  /** The tag classes whose value is a string (EventStartDate and EventEndDate also accept one). */
  datatype TextKind =
    | AdditionalTicketAttributes | AdmissionLevel | AdmissionLevelAbbreviation | AttendeeName
    | EntranceDescription | EventEndDateText | EventStartDateText | PriorityStatus
    | VenueEntranceDoor | VenueEntranceGate | VenueEntrancePortal | VenueRegionName

  /** The tag classes whose value is a DateTimeOffset. */
  datatype DateKind =
    | EventEndDate | EventStartDate | VenueBoxOfficeOpenDate | VenueCloseDate | VenueDoorsOpenDate
    | VenueFanZoneOpenDate | VenueGatesOpenDate | VenueOpenDate | VenueParkingLotsOpenDate

  /** One semantic tag; OtherTag stands for a tag class that is not part of this model. */
  datatype SemanticTag =
    | TextTag(textKind: TextKind, text: NString)
    | DateTag(dateKind: DateKind, date: DateTimeOffset)
    | TailgatingAllowed(flag: bool)
    | WifiAccess(networks: seq<WifiNetwork>)
    | OtherTag(key: string, value: Json)

  /** The wire key each string-valued tag class passes to its base class. */
  function TextKey(kind: TextKind): string {
    match kind
    case AdditionalTicketAttributes => "additionalTicketAttributes"
    case AdmissionLevel => "admissionLevel"
    case AdmissionLevelAbbreviation => "admissionLevelAbbreviation"
    case AttendeeName => "attendeeName"
    case EntranceDescription => "entranceDescription"
    case EventEndDateText => "eventEndDate"
    case EventStartDateText => "eventStartDate"
    case PriorityStatus => "priorityStatus"
    case VenueEntranceDoor => "venueEntranceDoor"
    case VenueEntranceGate => "venueEntranceGate"
    case VenueEntrancePortal => "venueEntrancePortal"
    case VenueRegionName => "venueRegionName"
  }

  /** The wire key each date-valued tag class passes to its base class. */
  function DateKey(kind: DateKind): string {
    match kind
    case EventEndDate => "eventEndDate"
    case EventStartDate => "eventStartDate"
    case VenueBoxOfficeOpenDate => "venueBoxOfficeOpenDate"
    case VenueCloseDate => "venueCloseDate"
    case VenueDoorsOpenDate => "venueDoorsOpenDate"
    case VenueFanZoneOpenDate => "venueFanZoneOpenDate"
    case VenueGatesOpenDate => "venueGatesOpenDate"
    case VenueOpenDate => "venueOpenDate"
    case VenueParkingLotsOpenDate => "venueParkingLotsOpenDate"
  }

  function WireKey(tag: SemanticTag): string {
    match tag
    case TextTag(kind, _) => TextKey(kind)
    case DateTag(kind, _) => DateKey(kind)
    case TailgatingAllowed(_) => "tailgatingAllowed"
    case WifiAccess(_) => "wifiAccess"
    case OtherTag(key, _) => key
  }

  /** The tag's value as written: a string (null as null), a boolean, a rendered date-time, the Wi-Fi array. */
  function TagValue(tag: SemanticTag): Json {
    match tag
    case TextTag(_, s) => StrOrNull(s)
    case DateTag(_, d) => JStr(Render(d))
    case TailgatingAllowed(b) => JBool(b)
    case WifiAccess(ns) => WifiAccessJson(ns)
    case OtherTag(_, j) => j
  }

  function TagMember(tag: SemanticTag): Member {
    Member(WireKey(tag), TagValue(tag))
  }

  /** One `key: value` member per tag, in insertion order; a repeated key is written twice. */
  function TagMembers(tags: seq<SemanticTag>): (ms: seq<Member>)
    ensures |ms| == |tags|
  {
    if tags == [] then [] else [TagMember(tags[0])] + TagMembers(tags[1..])
  }

  /** The `semantics` member of the pass: present only when there is at least one tag. */
  function SemanticsMembers(tags: seq<SemanticTag>): seq<Member> {
    if tags == [] then [] else [Member("semantics", JObject(TagMembers(tags)))]
  }

  lemma {:induction false} TagMembersAt(tags: seq<SemanticTag>, i: nat)
    requires i < |tags|
    ensures TagMembers(tags)[i] == TagMember(tags[i])
  {
    if i > 0 {
      TagMembersAt(tags[1..], i - 1);
    }
  }

  lemma {:induction false} TagMembersSnoc(tags: seq<SemanticTag>, t: SemanticTag)
    ensures TagMembers(tags + [t]) == TagMembers(tags) + [TagMember(t)]
  {
    if tags == [] {
      assert tags + [t] == [t];
    } else {
      assert (tags + [t])[1..] == tags[1..] + [t];
      TagMembersSnoc(tags[1..], t);
    }
  }

  lemma EncodeTagsPrefix(tags: seq<SemanticTag>, i: nat)
    requires i < |tags|
    ensures EncodeMembers(TagMembers(tags[..i + 1])) == EncodeMembers(TagMembers(tags[..i])) + EncodeMembers([TagMember(tags[i])])
  {
    assert tags[..i + 1] == tags[..i] + [tags[i]];
    TagMembersSnoc(tags[..i], tags[i]);
    EncodeMembersAppend(TagMembers(tags[..i]), [TagMember(tags[i])]);
  }

  /** SemanticTagBaseValue.Write and its overrides: the wire key, then the tag's value. */
  method WriteTag(tag: SemanticTag, w: JsonWriter)
    modifies w
    ensures w.tokens == old(w.tokens) + EncodeMembers([TagMember(tag)])
  {
    ghost var t0 := w.tokens;
    w.WritePropertyName(WireKey(tag));
    match tag {
      case TextTag(_, s) => w.WriteStringValue(s);
      case DateTag(_, d) => JsonWriterExtensions.WriteDateTimeValue(w, d);
      case TailgatingAllowed(b) => w.WriteBooleanValue(b);
      case WifiAccess(ns) => WriteWifiAccess(ns, w);
      case OtherTag(_, j) => w.WriteValue(j);
    }
    MemberTokens(t0, WireKey(tag), TagValue(tag));
  }

  /** Each tag's member, in insertion order. */
  method WriteTags(tags: seq<SemanticTag>, w: JsonWriter)
    modifies w
    ensures w.tokens == old(w.tokens) + EncodeMembers(TagMembers(tags))
  {
    var i := 0;
    while i < |tags|
      invariant 0 <= i <= |tags|
      invariant w.tokens == old(w.tokens) + EncodeMembers(TagMembers(tags[..i]))
    {
      WriteTag(tags[i], w);
      EncodeTagsPrefix(tags, i);
      i := i + 1;
    }
    assert tags[..i] == tags;
  }

  /** SemanticTags.Write: the `semantics` object with every tag in order, or nothing when there are no tags. */
  method WriteSemantics(tags: seq<SemanticTag>, w: JsonWriter)
    modifies w
    ensures w.tokens == old(w.tokens) + EncodeMembers(SemanticsMembers(tags))
  {
    if |tags| == 0 {
      return;
    }
    ghost var t0 := w.tokens;
    w.WritePropertyName("semantics");
    w.WriteStartObject();
    WriteTags(tags, w);
    w.WriteEndObject();
    ObjectMemberTokens(t0, "semantics", TagMembers(tags));
  }

  // ---------------------------------------------------------------------
  // Properties

  /** The string and the date-time forms of EventStartDate and EventEndDate share one wire key. */
  lemma EventDateKeysShared()
    ensures TextKey(EventStartDateText) == DateKey(EventStartDate)
    ensures TextKey(EventEndDateText) == DateKey(EventEndDate)
  {
  }

  /**
    The written `semantics` object reads back with one member per tag, in
    insertion order, under the tag's wire key; a date-valued tag's value
    reads back as its date-time, offset included.
   */
  lemma SemanticsReadBack(tags: seq<SemanticTag>)
    requires |tags| > 0
    ensures var ms := SemanticsMembers(tags);
      && |ms| == 1 && ms[0].key == "semantics"
      && Decode(Encode(ms[0].value)) == Some(JObject(TagMembers(tags)))
      && forall i :: 0 <= i < |tags| ==>
           && Keys(TagMembers(tags))[i] == WireKey(tags[i])
           && TagMembers(tags)[i].value == TagValue(tags[i])
           && (tags[i].DateTag? ==> ParseRendered(TagMembers(tags)[i].value.text) == Some(tags[i].date.(ticks := 0)))
  {
    DecodeEncode(JObject(TagMembers(tags)));
    forall i | 0 <= i < |tags|
      ensures TagMembers(tags)[i] == TagMember(tags[i])
      ensures tags[i].DateTag? ==> ParseRendered(TagMembers(tags)[i].value.text) == Some(tags[i].date.(ticks := 0))
    {
      TagMembersAt(tags, i);
      if tags[i].DateTag? {
        ParseRender(tags[i].date);
      }
    }
  }

  /** A VenueCloseDate of 2025-08-10 09:10 at +03:00 is written under `venueCloseDate` as "2025-08-10T09:10:00+03:00". */
  lemma VenueCloseDateExample()
    ensures var tag := DateTag(VenueCloseDate, Stamp(2025, 8, 10, 9, 10, 0, 0, 180));
      TagMember(tag) == Member("venueCloseDate", JStr("2025-08-10T09:10:00+03:00"))
  {
    RenderExample();
  }

  /** No tags, no `semantics` key. */
  lemma NoTagsNoSemantics(tags: seq<SemanticTag>)
    ensures SemanticsMembers(tags) == [] <==> tags == []
  {
  }
}
