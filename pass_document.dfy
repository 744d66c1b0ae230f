/**
  The pass document (pass.json) as a function of the request's state: which
  top-level keys appear, in which order, with which values, and where the
  writing stops when a colour cannot be converted or a relevance interval is
  too long.
 */
module PassDocuments {
  import opened Wrappers
  import opened Errors
  import opened Json
  import opened Text
  import opened DateTimes
  import opened Styles
  import Colors
  import RelevantDates
  import SemanticTags
  import opened FieldSections
  import opened Emissions

  datatype Nfc = Nfc(message: NString, encryptionPublicKey: NString)

  /** The keys WriteStandardKeys emits: the standard, event-guide and associated-app keys, and logoText. */
  datatype StandardKeys = StandardKeys(
    passTypeIdentifier: NString,
    serialNumber: NString,
    description: NString,
    organizationName: NString,
    teamIdentifier: NString,
    sharingProhibited: bool,
    auxiliaryStoreIdentifiers: int,
    suppressHeaderDarkening: bool,
    useAutomaticColors: bool,
    footerBackgroundColor: NString,
    sellURL: NString,
    transferURL: NString,
    bagPolicyURL: NString,
    orderFoodURL: NString,
    merchandiseURL: NString,
    transitInformationURL: NString,
    parkingInformationURL: NString,
    directionsInformationURL: NString,
    accessibilityURL: NString,
    purchaseParkingURL: NString,
    addOnURL: NString,
    contactVenueEmail: NString,
    contactVenueWebsite: NString,
    contactVenuePhoneNumber: NString,
    logoText: NString,
    associatedStoreIdentifiers: seq<int>,
    appLaunchURL: NString)

  /** The keys WriteAppearanceKeys emits. */
  datatype Appearance = Appearance(
    foregroundColor: NString,
    backgroundColor: NString,
    labelColor: NString,
    suppressStripShine: Option<bool>,
    groupingIdentifier: NString)

  /** Everything in a request that reaches pass.json. */
  datatype Pass = Pass(
    semanticTags: seq<SemanticTags.SemanticTag>,
    standard: StandardKeys,
    userInfo: Option<string>,
    relevantDate: Option<DateTimeOffset>,
    relevantDates: seq<RelevantDates.RelevantDate>,
    maxDistance: Option<int>,
    locations: seq<Json>,
    beacons: seq<Json>,
    appearance: Appearance,
    expirationDate: Option<DateTimeOffset>,
    voided: Option<bool>,
    barcodes: seq<Json>,
    nfc: Option<Nfc>,
    style: PassStyle,
    transitType: TransitType,
    sections: Sections,
    preferredStyleSchemes: seq<PreferredStyleScheme>,
    barcode: Option<Json>,
    authenticationToken: NString,
    webServiceUrl: NString)

  // ---------------------------------------------------------------------
  // Building blocks

  function OptionalString(name: string, s: NString): seq<Member> {
    if IsNullOrEmpty(s) then [] else [Member(name, StrOrNull(s))]
  }

  /** A list written as `name: [ ... ]`, and only when it is not empty. */
  function ArrayMember(name: string, items: seq<Json>): seq<Member> {
    if |items| == 0 then [] else [Member(name, JArray(items))]
  }

  function NumbersJson(ns: seq<int>): seq<Json> {
    seq(|ns|, i requires 0 <= i < |ns| => JNum(ns[i]))
  }

  function SchemesJson(schemes: seq<PreferredStyleScheme>): seq<Json> {
    seq(|schemes|, i requires 0 <= i < |schemes| => JStr(SchemeKey(schemes[i])))
  }

  /** The objects the fields of one section write, in insertion order. */
  function Bodies(fields: seq<Field>): seq<Json> {
    seq(|fields|, i requires 0 <= i < |fields| => fields[i].body)
  }

  /** An instant written with the format "yyyy-MM-ddTHH:mm:ssK". */
  function DateMember(name: string, d: Option<DateTimeOffset>): seq<Member> {
    if d.Some? then [Member(name, JStr(Render(d.value)))] else []
  }

  function BoolMember(name: string, b: Option<bool>): seq<Member> {
    if b.Some? then [Member(name, JBool(b.value))] else []
  }

  // ---------------------------------------------------------------------
  // The stages of Write, in order

  /** The pass's identity and the format version, which is always 1. */
  function IdentityMembers(k: StandardKeys): seq<Member> {
    [ Member("passTypeIdentifier", StrOrNull(k.passTypeIdentifier)),
      Member("formatVersion", JNum(1)),
      Member("serialNumber", StrOrNull(k.serialNumber)),
      Member("description", StrOrNull(k.description)),
      Member("organizationName", StrOrNull(k.organizationName)),
      Member("teamIdentifier", StrOrNull(k.teamIdentifier)) ]
  }

  /** Sharing, store and display settings. */
  function DisplayMembers(k: StandardKeys): seq<Member> {
    [ Member("sharingProhibited", JBool(k.sharingProhibited)),
      Member("auxiliaryStoreIdentifiers", JNum(k.auxiliaryStoreIdentifiers)),
      Member("suppressHeaderDarkening", JBool(k.suppressHeaderDarkening)),
      Member("useAutomaticColors", JBool(k.useAutomaticColors)),
      Member("footerBackgroundColor", StrOrNull(k.footerBackgroundColor)) ]
  }

  /** The first event-guide links. */
  function EventGuideMembers(k: StandardKeys): seq<Member> {
    [ Member("sellURL", StrOrNull(k.sellURL)),
      Member("transferURL", StrOrNull(k.transferURL)),
      Member("bagPolicyURL", StrOrNull(k.bagPolicyURL)),
      Member("orderFoodURL", StrOrNull(k.orderFoodURL)),
      Member("merchandiseURL", StrOrNull(k.merchandiseURL)) ]
  }

  /** The information links. */
  function InformationMembers(k: StandardKeys): seq<Member> {
    [ Member("transitInformationURL", StrOrNull(k.transitInformationURL)),
      Member("parkingInformationURL", StrOrNull(k.parkingInformationURL)),
      Member("directionsInformationURL", StrOrNull(k.directionsInformationURL)),
      Member("accessibilityURL", StrOrNull(k.accessibilityURL)) ]
  }

  /** The remaining links and the venue's contact details. */
  function VenueMembers(k: StandardKeys): seq<Member> {
    [ Member("purchaseParkingURL", StrOrNull(k.purchaseParkingURL)),
      Member("addOnURL", StrOrNull(k.addOnURL)),
      Member("contactVenueEmail", StrOrNull(k.contactVenueEmail)),
      Member("contactVenueWebsite", StrOrNull(k.contactVenueWebsite)),
      Member("contactVenuePhoneNumber", StrOrNull(k.contactVenuePhoneNumber)) ]
  }

  /**
    WriteStandardKeys: twenty-five keys always, in five groups, then logoText,
    associatedStoreIdentifiers and appLaunchURL when set.
   */
  function StandardMembers(k: StandardKeys): seq<Member> {
    IdentityMembers(k) + DisplayMembers(k) + EventGuideMembers(k) + InformationMembers(k) + VenueMembers(k)
    + OptionalString("logoText", k.logoText)
    + ArrayMember("associatedStoreIdentifiers", NumbersJson(k.associatedStoreIdentifiers))
    + OptionalString("appLaunchURL", k.appLaunchURL)
  }

  /** WriteUserInfo: the serialised dictionary, verbatim, unless the reference is null. */
  function UserInfoMembers(userInfo: Option<string>): seq<Member> {
    if userInfo.Some? then [Member("userInfo", JRaw(userInfo.value))] else []
  }

  /** Semantics, standard keys and user info: the stages before the first one that can throw. */
  function Head(p: Pass): seq<Member> {
    SemanticTags.SemanticsMembers(p.semanticTags) + StandardMembers(p.standard) + UserInfoMembers(p.userInfo)
  }

  /** The object every accepted relevance entry writes. */
  function EntriesJson(rds: seq<RelevantDates.RelevantDate>): seq<Json> {
    seq(|rds|, i requires 0 <= i < |rds| => JObject(RelevantDates.Members(rds[i])))
  }

  /** The relevance entries written one by one until the first that fails validation. */
  function WrittenDates(rds: seq<RelevantDates.RelevantDate>): (seq<Json>, Option<Error>) {
    if rds == [] then ([], None)
    else match RelevantDates.ToJson(rds[0])
      case Err(e) => ([], Some(e))
      case Ok(j) =>
        var rest := WrittenDates(rds[1..]);
        ([j] + rest.0, rest.1)
  }

  /** The relevantDates array, or the tokens written before an entry threw. */
  function RelevantDatesKeys(rds: seq<RelevantDates.RelevantDate>): Emission {
    if |rds| == 0 then Complete([])
    else
      var written := WrittenDates(rds);
      if written.1.None? then Complete([Member("relevantDates", JArray(written.0))])
      else Failed([PropName("relevantDates"), StartArr] + EncodeItems(written.0), written.1.value)
  }

  /** maxDistance is written as the decimal text of the number, not as a JSON number. */
  function MaxDistanceMembers(maxDistance: Option<int>): seq<Member> {
    if maxDistance.Some? then [Member("maxDistance", JStr(IntText(maxDistance.value)))] else []
  }

  function RelevanceTail(p: Pass): seq<Member> {
    MaxDistanceMembers(p.maxDistance) + ArrayMember("locations", p.locations) + ArrayMember("beacons", p.beacons)
  }

  /** WriteRelevanceKeys. */
  function RelevanceKeys(p: Pass): Emission {
    Complete(DateMember("relevantDate", p.relevantDate))
      .Then(RelevantDatesKeys(p.relevantDates))
      .Then(Complete(RelevanceTail(p)))
  }

  /** A colour key: absent when null or empty, otherwise its converted value; a failed conversion leaves the name written. */
  function ColorKey(name: string, color: NString): Emission {
    if IsNullOrEmpty(color) then Complete([])
    else match Colors.ConvertColor(color.value)
      case Ok(s) => Complete([Member(name, JStr(s))])
      case Err(e) => Failed([PropName(name)], e)
  }

  function AppearanceTail(a: Appearance): seq<Member> {
    BoolMember("suppressStripShine", a.suppressStripShine) + OptionalString("groupingIdentifier", a.groupingIdentifier)
  }

  /** WriteAppearanceKeys. */
  function AppearanceKeys(a: Appearance): Emission {
    ColorKey("foregroundColor", a.foregroundColor)
      .Then(ColorKey("backgroundColor", a.backgroundColor))
      .Then(ColorKey("labelColor", a.labelColor))
      .Then(Complete(AppearanceTail(a)))
  }

  function ExpirationMembers(p: Pass): seq<Member> {
    DateMember("expirationDate", p.expirationDate) + BoolMember("voided", p.voided)
  }

  /** WriteNfcKeys, which Write calls only for a non-null Nfc: nothing unless the message is set. */
  function NfcMembers(nfc: Option<Nfc>): seq<Member> {
    if nfc.None? || IsNullOrEmpty(nfc.value.message) then []
    else [Member("nfc", JObject([Member("message", StrOrNull(nfc.value.message))]
                                + OptionalString("encryptionPublicKey", nfc.value.encryptionPublicKey)))]
  }

  /** The five field arrays, always written, in this order. */
  function SectionMembers(ss: Sections): seq<Member> {
    [ Member("headerFields", JArray(Bodies(ss.header))),
      Member("primaryFields", JArray(Bodies(ss.primary))),
      Member("secondaryFields", JArray(Bodies(ss.secondary))),
      Member("auxiliaryFields", JArray(Bodies(ss.auxiliary))),
      Member("backFields", JArray(Bodies(ss.back))) ]
  }

  function TransitMembers(style: PassStyle, transit: TransitType): seq<Member> {
    if style == BoardingPass then [Member("transitType", JStr(TransitName(transit)))] else []
  }

  /** The style-specific dictionary: the field sections, and transitType for a boarding pass. */
  function StyleObject(p: Pass): Json {
    JObject(SectionMembers(p.sections) + TransitMembers(p.style, p.transitType))
  }

  function UrlMembers(token: NString, url: NString): seq<Member> {
    if IsNullOrEmpty(token) then []
    else [Member("authenticationToken", StrOrNull(token)), Member("webServiceURL", StrOrNull(url))]
  }

  function BarcodeMember(barcode: Option<Json>): seq<Member> {
    if barcode.Some? then [Member("barcode", barcode.value)] else []
  }

  /** Expiration, barcodes, NFC and the style dictionary: the stages after the last one that can throw, up to the style dictionary. */
  function Body(p: Pass): seq<Member> {
    ExpirationMembers(p) + ArrayMember("barcodes", p.barcodes) + NfcMembers(p.nfc)
    + [Member(WrapperKey(p.style), StyleObject(p))]
  }

  /** Preferred style schemes, barcode and the web-service keys: the last stages. */
  function Trailer(p: Pass): seq<Member> {
    ArrayMember("preferredStyleSchemes", SchemesJson(p.preferredStyleSchemes))
    + BarcodeMember(p.barcode) + UrlMembers(p.authenticationToken, p.webServiceUrl)
  }

  /** PassGeneratorRequest.Write, stage by stage (inside the outer braces). */
  function Document(p: Pass): Emission {
    Complete(Head(p))
      .Then(RelevanceKeys(p))
      .Then(AppearanceKeys(p.appearance))
      .Then(Complete(Body(p) + Trailer(p)))
  }

  // ---------------------------------------------------------------------
  // Relevance entries

  predicate SomeTooLong(rds: seq<RelevantDates.RelevantDate>) {
    exists i :: 0 <= i < |rds| && RelevantDates.TooLong(rds[i])
  }

  lemma EntriesJsonTail(rds: seq<RelevantDates.RelevantDate>)
    requires rds != []
    ensures EntriesJson(rds) == [JObject(RelevantDates.Members(rds[0]))] + EntriesJson(rds[1..])
  {
  }

  /** When every entry is valid, all of them are written, in order. */
  lemma {:induction false} WrittenDatesAllValid(rds: seq<RelevantDates.RelevantDate>)
    requires !SomeTooLong(rds)
    ensures WrittenDates(rds) == (EntriesJson(rds), None)
  {
    if rds != [] {
      assert !RelevantDates.TooLong(rds[0]);
      assert RelevantDates.ToJson(rds[0]) == Ok(JObject(RelevantDates.Members(rds[0])));
      assert !SomeTooLong(rds[1..]) by {
        forall i | 0 <= i < |rds[1..]|
          ensures !RelevantDates.TooLong(rds[1..][i])
        {
          assert rds[1..][i] == rds[i + 1];
        }
      }
      WrittenDatesAllValid(rds[1..]);
      EntriesJsonTail(rds);
    } else {
      assert EntriesJson(rds) == [];
    }
  }

  /** The first entry that fails stops the array: the entries before it are written, it and the rest are not. */
  lemma {:induction false} WrittenDatesFirstInvalid(rds: seq<RelevantDates.RelevantDate>, k: nat)
    requires k < |rds| && RelevantDates.TooLong(rds[k])
    requires !SomeTooLong(rds[..k])
    ensures WrittenDates(rds) == (EntriesJson(rds[..k]), Some(IntervalTooLong))
  {
    if k == 0 {
      assert EntriesJson(rds[..0]) == [];
    } else {
      assert rds[..k][0] == rds[0];
      assert !RelevantDates.TooLong(rds[0]);
      var before := rds[1..][..k - 1];
      assert before == rds[..k][1..];
      assert !SomeTooLong(before) by {
        forall i | 0 <= i < |before|
          ensures !RelevantDates.TooLong(before[i])
        {
          assert before[i] == rds[..k][i + 1];
        }
      }
      WrittenDatesFirstInvalid(rds[1..], k - 1);
      EntriesJsonTail(rds[..k]);
    }
  }

  /** Relevance entries abort the document exactly when one of them spans more than 24 hours. */
  lemma RelevantDatesFail(rds: seq<RelevantDates.RelevantDate>)
    ensures RelevantDatesKeys(rds).failure.Some? <==> SomeTooLong(rds)
    ensures RelevantDatesKeys(rds).failure.Some? ==> RelevantDatesKeys(rds).failure.value.error == IntervalTooLong
    ensures !SomeTooLong(rds) ==> RelevantDatesKeys(rds) == Complete(ArrayMember("relevantDates", EntriesJson(rds)))
  {
    if SomeTooLong(rds) {
      var k := FirstTooLong(rds);
      WrittenDatesFirstInvalid(rds, k);
    } else {
      WrittenDatesAllValid(rds);
    }
  }

  /** The index of the first entry that fails validation. */
  lemma FirstTooLong(rds: seq<RelevantDates.RelevantDate>) returns (k: nat)
    requires SomeTooLong(rds)
    ensures k < |rds| && RelevantDates.TooLong(rds[k]) && !SomeTooLong(rds[..k])
  {
    k := 0;
    while !RelevantDates.TooLong(rds[k])
      invariant k < |rds|
      invariant forall i :: 0 <= i < k ==> !RelevantDates.TooLong(rds[i])
      invariant exists i :: k <= i < |rds| && RelevantDates.TooLong(rds[i])
      decreases |rds| - k
    {
      k := k + 1;
    }
    var before := rds[..k];
    forall i | 0 <= i < |before|
      ensures !RelevantDates.TooLong(before[i])
    {
      assert before[i] == rds[i];
    }
  }

  /**
    When an entry is too long, the document keeps the array's name, its
    opening bracket and every entry before the failing one, and nothing is
    closed.
   */
  lemma RelevantDatesPartial(rds: seq<RelevantDates.RelevantDate>, k: nat)
    requires k < |rds| && RelevantDates.TooLong(rds[k])
    requires !SomeTooLong(rds[..k])
    ensures RelevantDatesKeys(rds) == Failed([PropName("relevantDates"), StartArr] + EncodeItems(EntriesJson(rds[..k])), IntervalTooLong)
  {
    WrittenDatesFirstInvalid(rds, k);
  }

  // ---------------------------------------------------------------------
  // Failures

  predicate ColorFails(color: NString) {
    !IsNullOrEmpty(color) && Colors.ConvertColor(color.value).Err?
  }

  lemma ColorKeyFails(name: string, color: NString)
    ensures ColorKey(name, color).failure.Some? <==> ColorFails(color)
    ensures ColorFails(color) ==> ColorKey(name, color) == Failed([PropName(name)], Colors.ConvertColor(color.value).error)
  {
  }

  /** The appearance stage throws exactly when one of the three set colours does not convert, and reports the first. */
  lemma AppearanceFails(a: Appearance)
    ensures AppearanceKeys(a).failure.Some? <==> ColorFails(a.foregroundColor) || ColorFails(a.backgroundColor) || ColorFails(a.labelColor)
    ensures ColorFails(a.foregroundColor) ==> AppearanceKeys(a) == Failed([PropName("foregroundColor")], Colors.ConvertColor(a.foregroundColor.value).error)
  {
    ColorKeyFails("foregroundColor", a.foregroundColor);
    ColorKeyFails("backgroundColor", a.backgroundColor);
    ColorKeyFails("labelColor", a.labelColor);
  }

  lemma RelevanceFails(p: Pass)
    ensures RelevanceKeys(p).failure.Some? <==> SomeTooLong(p.relevantDates)
    ensures SomeTooLong(p.relevantDates) ==> ErrorOf(RelevanceKeys(p)) == Some(IntervalTooLong)
  {
    RelevantDatesFail(p.relevantDates);
  }

  /**
    Write throws exactly when a relevance interval is longer than a day or a
    set colour does not convert; the relevance error comes first.
   */
  lemma DocumentFails(p: Pass)
    ensures Document(p).failure.Some? <==>
      SomeTooLong(p.relevantDates) || ColorFails(p.appearance.foregroundColor)
      || ColorFails(p.appearance.backgroundColor) || ColorFails(p.appearance.labelColor)
    ensures SomeTooLong(p.relevantDates) ==> ErrorOf(Document(p)) == Some(IntervalTooLong)
    ensures !SomeTooLong(p.relevantDates) && ColorFails(p.appearance.foregroundColor) ==>
      ErrorOf(Document(p)) == Some(Colors.ConvertColor(p.appearance.foregroundColor.value).error)
  {
    RelevanceFails(p);
    AppearanceFails(p.appearance);
  }

  /**
    A foreground colour that does not convert leaves the document open: the
    members before it, then the dangling property name, and no closing brace.
   */
  lemma ForegroundColorFailure(p: Pass)
    requires !SomeTooLong(p.relevantDates) && ColorFails(p.appearance.foregroundColor)
    ensures Written(Document(p)) == [StartObj] + EncodeMembers(Head(p) + RelevanceKeys(p).members) + [PropName("foregroundColor")]
  {
    RelevanceFails(p);
    AppearanceFails(p.appearance);
    var ms := Head(p) + RelevanceKeys(p).members;
    assert Complete(Head(p)).Then(RelevanceKeys(p)) == Complete(ms);
    FailedStageWritten(ms, [PropName("foregroundColor")], Colors.ConvertColor(p.appearance.foregroundColor.value).error,
      Complete(Body(p) + Trailer(p)));
  }

  // ---------------------------------------------------------------------
  // Shape of a complete document

  /** A complete relevance stage: the legacy date, every entry, then maxDistance, locations and beacons. */
  lemma RelevanceMembers(p: Pass)
    requires !SomeTooLong(p.relevantDates)
    ensures RelevanceKeys(p) == Complete(DateMember("relevantDate", p.relevantDate)
      + ArrayMember("relevantDates", EntriesJson(p.relevantDates)) + RelevanceTail(p))
  {
    RelevantDatesFail(p.relevantDates);
  }

  /** What a complete document holds, stage by stage. */
  lemma DocumentMembers(p: Pass)
    requires Document(p).failure.None?
    ensures RelevanceKeys(p).failure.None? && AppearanceKeys(p.appearance).failure.None?
    ensures Document(p).members == Head(p) + RelevanceKeys(p).members + AppearanceKeys(p.appearance).members + Body(p) + Trailer(p)
  {
    var r, a := RelevanceKeys(p), AppearanceKeys(p.appearance);
    var d1 := Complete(Head(p)).Then(r);
    var d2 := d1.Then(a);
    assert d2.failure.None?;
    assert Document(p).members == d2.members + (Body(p) + Trailer(p));
  }

  /** A complete document reads back as one JSON object with exactly these members. */
  lemma DocumentReadsBack(p: Pass)
    requires Document(p).failure.None?
    ensures Decode(Written(Document(p))) == Some(JObject(Document(p).members))
  {
    WrittenComplete(Document(p));
  }

  /**
    The semantics object, when there are tags, is the first key of the
    document; without tags the document starts with passTypeIdentifier.
    Either way the standard keys follow, whatever happens later.
   */
  lemma SemanticsFirst(p: Pass)
    ensures |Document(p).members| > 0
    ensures |p.semanticTags| > 0 ==> Document(p).members[0] == Member("semantics", JObject(SemanticTags.TagMembers(p.semanticTags)))
    ensures |p.semanticTags| == 0 ==> Document(p).members[0] == Member("passTypeIdentifier", StrOrNull(p.standard.passTypeIdentifier))
    ensures Document(p).members[..|Head(p)|] == Head(p)
  {
    var d0 := Complete(Head(p));
    var d1 := d0.Then(RelevanceKeys(p));
    var d2 := d1.Then(AppearanceKeys(p.appearance));
    ThenExtends(d0, RelevanceKeys(p));
    ThenExtends(d1, AppearanceKeys(p.appearance));
    ThenExtends(d2, Complete(Body(p) + Trailer(p)));
    PrefixOfPrefix(Head(p), d1.members, d2.members);
    PrefixOfPrefix(Head(p), d2.members, Document(p).members);
    assert Head(p)[0] == Document(p).members[0];
  }

  /** A later stage only adds members after those already written. */
  lemma ThenExtends(a: Emission, b: Emission)
    ensures |a.members| <= |a.Then(b).members|
    ensures a.Then(b).members[..|a.members|] == a.members
  {
  }

  lemma PrefixOfPrefix(a: seq<Member>, b: seq<Member>, c: seq<Member>)
    requires |a| <= |b| <= |c|
    requires b[..|a|] == a && c[..|b|] == b
    ensures c[..|a|] == a
  {
    assert c[..|a|] == c[..|b|][..|a|];
  }

  // ---------------------------------------------------------------------
  // The style dictionary

  /** The five sections always appear, in order, each holding its fields in insertion order; transitType follows only for a boarding pass. */
  lemma StyleObjectShape(p: Pass)
    ensures StyleObject(p).JObject?
    ensures Keys(StyleObject(p).members) ==
      ["headerFields", "primaryFields", "secondaryFields", "auxiliaryFields", "backFields"]
      + (if p.style == BoardingPass then ["transitType"] else [])
    ensures forall s: Section :: StyleObject(p).members[SectionIndex(s)].value == JArray(Bodies(p.sections.Get(s)))
  {
    var transit := TransitMembers(p.style, p.transitType);
    SectionsFirst(p.sections, transit);
    assert Keys(transit) == if p.style == BoardingPass then ["transitType"] else [];
  }

  /** The five section members lead the style dictionary, whatever follows them. */
  lemma SectionsFirst(ss: Sections, tail: seq<Member>)
    ensures Keys(SectionMembers(ss) + tail) ==
      ["headerFields", "primaryFields", "secondaryFields", "auxiliaryFields", "backFields"] + Keys(tail)
    ensures forall s: Section :: (SectionMembers(ss) + tail)[SectionIndex(s)].value == JArray(Bodies(ss.Get(s)))
  {
    KeysAppend(SectionMembers(ss), tail);
    assert Keys(SectionMembers(ss)) == ["headerFields", "primaryFields", "secondaryFields", "auxiliaryFields", "backFields"];
  }

  function SectionIndex(s: Section): nat {
    match s
    case Header => 0
    case Primary => 1
    case Secondary => 2
    case Auxiliary => 3
    case Back => 4
  }

  /** transitType is a key of the style dictionary exactly for a boarding pass, and holds the transit type's name. */
  lemma TransitTypeIffBoardingPass(p: Pass)
    ensures (exists i :: 0 <= i < |StyleObject(p).members| && StyleObject(p).members[i].key == "transitType") <==> p.style == BoardingPass
    ensures p.style == BoardingPass ==> StyleObject(p).members[5] == Member("transitType", JStr(TransitName(p.transitType)))
  {
    var ms := StyleObject(p).members;
    if p.style == BoardingPass {
      assert ms[5].key == "transitType";
    } else {
      assert ms == SectionMembers(p.sections);
      forall i | 0 <= i < |ms|
        ensures ms[i].key != "transitType"
      {
      }
    }
  }

  /** A complete document holds the style dictionary under the style's own key. */
  lemma StyleDictionaryPresent(p: Pass)
    requires Document(p).failure.None?
    ensures exists i :: 0 <= i < |Document(p).members| && Document(p).members[i] == Member(WrapperKey(p.style), StyleObject(p))
  {
    DocumentMembers(p);
    var ms := Document(p).members;
    var before := Head(p) + RelevanceKeys(p).members + AppearanceKeys(p.appearance).members;
    var i := |before| + |ExpirationMembers(p) + ArrayMember("barcodes", p.barcodes) + NfcMembers(p.nfc)|;
    assert ms == before + Body(p) + Trailer(p);
    assert ms[i] == Member(WrapperKey(p.style), StyleObject(p));
  }

  // ---------------------------------------------------------------------
  // The last keys

  predicate Avoids(ms: seq<Member>, key: string) {
    forall i :: 0 <= i < |ms| ==> ms[i].key != key
  }

  lemma AvoidsAppend(a: seq<Member>, b: seq<Member>, key: string)
    requires Avoids(a, key) && Avoids(b, key)
    ensures Avoids(a + b, key)
  {
    forall i | 0 <= i < |a + b|
      ensures (a + b)[i].key != key
    {
      if i >= |a| {
        assert (a + b)[i] == b[i - |a|];
      }
    }
  }

  /** Keys that no stage before the trailer ever writes at the top level. */
  predicate TrailerKey(key: string) {
    key in {"preferredStyleSchemes", "authenticationToken", "webServiceURL"}
  }

  lemma StandardAvoidsTrailer(k: StandardKeys, key: string)
    requires TrailerKey(key)
    ensures Avoids(StandardMembers(k), key)
  {
    var ms := IdentityMembers(k);
    AvoidsAppend(ms, DisplayMembers(k), key);
    ms := ms + DisplayMembers(k);
    AvoidsAppend(ms, EventGuideMembers(k), key);
    ms := ms + EventGuideMembers(k);
    AvoidsAppend(ms, InformationMembers(k), key);
    ms := ms + InformationMembers(k);
    AvoidsAppend(ms, VenueMembers(k), key);
    ms := ms + VenueMembers(k);
    AvoidsAppend(ms, OptionalString("logoText", k.logoText), key);
    ms := ms + OptionalString("logoText", k.logoText);
    AvoidsAppend(ms, ArrayMember("associatedStoreIdentifiers", NumbersJson(k.associatedStoreIdentifiers)), key);
    ms := ms + ArrayMember("associatedStoreIdentifiers", NumbersJson(k.associatedStoreIdentifiers));
    AvoidsAppend(ms, OptionalString("appLaunchURL", k.appLaunchURL), key);
  }

  lemma RelevanceAvoidsTrailer(p: Pass, key: string)
    requires TrailerKey(key)
    ensures Avoids(RelevanceKeys(p).members, key)
  {
    var a := DateMember("relevantDate", p.relevantDate);
    var b := RelevantDatesKeys(p.relevantDates).members;
    assert Avoids(b, key);
    AvoidsAppend(a, b, key);
    AvoidsAppend(a + b, RelevanceTail(p), key);
  }

  lemma AppearanceAvoidsTrailer(a: Appearance, key: string)
    requires TrailerKey(key)
    ensures Avoids(AppearanceKeys(a).members, key)
  {
    var f, b, l := ColorKey("foregroundColor", a.foregroundColor), ColorKey("backgroundColor", a.backgroundColor), ColorKey("labelColor", a.labelColor);
    assert Avoids(f.members, key) && Avoids(b.members, key) && Avoids(l.members, key);
    AvoidsAppend(f.members, b.members, key);
    AvoidsAppend(f.members + b.members, l.members, key);
    AvoidsAppend(f.members + b.members + l.members, AppearanceTail(a), key);
  }

  lemma BodyAvoidsTrailer(p: Pass, key: string)
    requires TrailerKey(key)
    ensures Avoids(Body(p), key)
  {
    WrapperKeys();
    var ms := ExpirationMembers(p);
    AvoidsAppend(ms, ArrayMember("barcodes", p.barcodes), key);
    ms := ms + ArrayMember("barcodes", p.barcodes);
    AvoidsAppend(ms, NfcMembers(p.nfc), key);
    ms := ms + NfcMembers(p.nfc);
    assert WrapperKey(p.style) != key;
    AvoidsAppend(ms, [Member(WrapperKey(p.style), StyleObject(p))], key);
  }

  lemma HeadAvoidsTrailer(p: Pass, key: string)
    requires TrailerKey(key)
    ensures Avoids(Head(p), key)
  {
    StandardAvoidsTrailer(p.standard, key);
    var sem := SemanticTags.SemanticsMembers(p.semanticTags);
    assert Avoids(sem, key);
    AvoidsAppend(sem, StandardMembers(p.standard), key);
    AvoidsAppend(sem + StandardMembers(p.standard), UserInfoMembers(p.userInfo), key);
  }

  /** Nothing before the trailer uses one of its keys. */
  lemma BeforeTrailerAvoids(p: Pass, key: string)
    requires TrailerKey(key)
    requires Document(p).failure.None?
    ensures Document(p).members == Head(p) + RelevanceKeys(p).members + AppearanceKeys(p.appearance).members + Body(p) + Trailer(p)
    ensures Avoids(Head(p) + RelevanceKeys(p).members + AppearanceKeys(p.appearance).members + Body(p), key)
  {
    DocumentMembers(p);
    HeadAvoidsTrailer(p, key);
    RelevanceAvoidsTrailer(p, key);
    AvoidsAppend(Head(p), RelevanceKeys(p).members, key);
    AppearanceAvoidsTrailer(p.appearance, key);
    AvoidsAppend(Head(p) + RelevanceKeys(p).members, AppearanceKeys(p.appearance).members, key);
    BodyAvoidsTrailer(p, key);
    AvoidsAppend(Head(p) + RelevanceKeys(p).members + AppearanceKeys(p.appearance).members, Body(p), key);
  }

  /**
    authenticationToken and webServiceURL are the last two keys of a complete
    document when the token is set, and neither appears when it is null or
    empty.
   */
  lemma WebServiceKeysLast(p: Pass)
    requires Document(p).failure.None?
    ensures !IsNullOrEmpty(p.authenticationToken) ==>
      var ms := Document(p).members;
      && |ms| >= 2
      && ms[|ms| - 2] == Member("authenticationToken", JStr(p.authenticationToken.value))
      && ms[|ms| - 1] == Member("webServiceURL", StrOrNull(p.webServiceUrl))
    ensures IsNullOrEmpty(p.authenticationToken) ==>
      Avoids(Document(p).members, "authenticationToken") && Avoids(Document(p).members, "webServiceURL")
  {
    BeforeTrailerAvoids(p, "authenticationToken");
    BeforeTrailerAvoids(p, "webServiceURL");
    UrlsLast(Head(p) + RelevanceKeys(p).members + AppearanceKeys(p.appearance).members + Body(p),
      SchemesJson(p.preferredStyleSchemes), p.barcode, p.authenticationToken, p.webServiceUrl);
  }

  /** WebServiceKeysLast, for any members written before the trailer that use neither key. */
  lemma UrlsLast(before: seq<Member>, schemesJson: seq<Json>, barcode: Option<Json>, token: NString, url: NString)
    requires Avoids(before, "authenticationToken") && Avoids(before, "webServiceURL")
    ensures var ms := before + (ArrayMember("preferredStyleSchemes", schemesJson) + BarcodeMember(barcode) + UrlMembers(token, url));
      && (!IsNullOrEmpty(token) ==>
           && |ms| >= 2
           && ms[|ms| - 2] == Member("authenticationToken", JStr(token.value))
           && ms[|ms| - 1] == Member("webServiceURL", StrOrNull(url)))
      && (IsNullOrEmpty(token) ==> Avoids(ms, "authenticationToken") && Avoids(ms, "webServiceURL"))
  {
    var schemes := ArrayMember("preferredStyleSchemes", schemesJson);
    var codes := BarcodeMember(barcode);
    var urls := UrlMembers(token, url);
    Regroup(before, schemes, codes, urls);
    var early := before + schemes + codes;
    AvoidsAppend(before, schemes, "authenticationToken");
    AvoidsAppend(before, schemes, "webServiceURL");
    AvoidsAppend(before + schemes, codes, "authenticationToken");
    AvoidsAppend(before + schemes, codes, "webServiceURL");
    if IsNullOrEmpty(token) {
      assert early + urls == early;
    } else {
      assert (early + urls)[|early|..] == urls;
    }
  }

  /** The trailer's three parts, regrouped. */
  lemma Regroup(before: seq<Member>, a: seq<Member>, b: seq<Member>, c: seq<Member>)
    ensures before + (a + b + c) == before + a + b + c
    ensures before + (a + b + c) == before + a + (b + c)
  {
  }

  /** A key that neither end of a member list uses is found exactly where the middle holds it. */
  lemma KeyOnlyInMiddle(before: seq<Member>, mid: seq<Member>, after: seq<Member>, key: string)
    requires Avoids(before, key) && Avoids(after, key)
    ensures (exists i :: 0 <= i < |before + mid + after| && (before + mid + after)[i].key == key)
      <==> (exists i :: 0 <= i < |mid| && mid[i].key == key)
    ensures forall i :: 0 <= i < |mid| ==> (before + mid + after)[|before| + i] == mid[i]
  {
    var ms := before + mid + after;
    forall i | 0 <= i < |ms| && ms[i].key == key
      ensures |before| <= i < |before| + |mid| && mid[i - |before|].key == key
    {
    }
    if exists i :: 0 <= i < |mid| && mid[i].key == key {
      var i :| 0 <= i < |mid| && mid[i].key == key;
      assert ms[|before| + i] == mid[i];
    }
  }

  /** preferredStyleSchemes is a key of a complete document exactly when the list is not empty, and then lists each scheme's key in order. */
  lemma SchemesIffNonEmpty(p: Pass)
    requires Document(p).failure.None?
    ensures (exists i :: 0 <= i < |Document(p).members| && Document(p).members[i].key == "preferredStyleSchemes")
      <==> |p.preferredStyleSchemes| > 0
    ensures |p.preferredStyleSchemes| > 0 ==>
      exists i :: 0 <= i < |Document(p).members|
        && Document(p).members[i] == Member("preferredStyleSchemes", JArray(SchemesJson(p.preferredStyleSchemes)))
  {
    BeforeTrailerAvoids(p, "preferredStyleSchemes");
    SchemesOnce(Head(p) + RelevanceKeys(p).members + AppearanceKeys(p.appearance).members + Body(p),
      SchemesJson(p.preferredStyleSchemes), p.barcode, p.authenticationToken, p.webServiceUrl);
  }

  /** SchemesIffNonEmpty, for any members written before the trailer that do not use the key. */
  lemma SchemesOnce(before: seq<Member>, schemesJson: seq<Json>, barcode: Option<Json>, token: NString, url: NString)
    requires Avoids(before, "preferredStyleSchemes")
    ensures var ms := before + (ArrayMember("preferredStyleSchemes", schemesJson) + BarcodeMember(barcode) + UrlMembers(token, url));
      && ((exists i :: 0 <= i < |ms| && ms[i].key == "preferredStyleSchemes") <==> |schemesJson| > 0)
      && (|schemesJson| > 0 ==> exists i :: 0 <= i < |ms| && ms[i] == Member("preferredStyleSchemes", JArray(schemesJson)))
  {
    var key := "preferredStyleSchemes";
    var schemes := ArrayMember(key, schemesJson);
    var after := BarcodeMember(barcode) + UrlMembers(token, url);
    Regroup(before, schemes, BarcodeMember(barcode), UrlMembers(token, url));
    assert Avoids(after, key);
    KeyOnlyInMiddle(before, schemes, after, key);
    if |schemesJson| > 0 {
      assert schemes[0].key == key;
    }
  }
}
