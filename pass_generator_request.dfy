/**
  PassGeneratorRequest: the mutable request an application fills in, and
  Write, which streams pass.json from it. Write reads the request and
  changes nothing in it; what it writes is PassDocuments.Document of the
  request's current state.
 */
module Generator {
  import opened Wrappers
  import opened Errors
  import opened Json
  import opened Text
  import opened DateTimes
  import opened Styles
  import Colors
  import RelevantDates
  import SemanticTags
  import opened FieldSections
  import opened Emissions
  import opened PassDocuments
  import Localizations

  /** Every standard key unset: strings null, flags false, numbers zero, no store identifiers. */
  const NoStandardKeys := StandardKeys(
    None, None, None, None, None, false, 0, false, false, None,
    None, None, None, None, None, None, None, None, None, None, None,
    None, None, None, None, [], None)

  const NoAppearance := Appearance(None, None, None, None, None)

  /** JsonSerializer's text for an empty dictionary. */
  const EmptyUserInfo := "{}"

  // ---------------------------------------------------------------------
  // Keys written only when set

  /** The `if (!string.IsNullOrEmpty(x))` pattern: name and value, or nothing. */
  method WriteOptionalString(w: JsonWriter, name: string, s: NString)
    modifies w
    ensures w.tokens == old(w.tokens) + EncodeMembers(OptionalString(name, s))
  {
    if !IsNullOrEmpty(s) {
      ghost var t0 := w.tokens;
      w.WritePropertyName(name);
      w.WriteStringValue(s);
      MemberTokens(t0, name, StrOrNull(s));
    }
  }

  /** A nullable boolean: written only when it has a value. */
  method WriteOptionalBool(w: JsonWriter, name: string, b: Option<bool>)
    modifies w
    ensures w.tokens == old(w.tokens) + EncodeMembers(BoolMember(name, b))
  {
    if b.Some? {
      ghost var t0 := w.tokens;
      w.WritePropertyName(name);
      w.WriteBooleanValue(b.value);
      MemberTokens(t0, name, JBool(b.value));
    }
  }

  /** A nullable instant: written only when it has a value, as text in the format "yyyy-MM-ddTHH:mm:ssK". */
  method WriteOptionalDate(w: JsonWriter, name: string, d: Option<DateTimeOffset>)
    modifies w
    ensures w.tokens == old(w.tokens) + EncodeMembers(DateMember(name, d))
  {
    if d.Some? {
      ghost var t0 := w.tokens;
      w.WritePropertyName(name);
      w.WriteStringValue(Some(Render(d.value)));
      MemberTokens(t0, name, JStr(Render(d.value)));
    }
  }

  // ---------------------------------------------------------------------
  // Lists written as arrays

  /** A list whose elements write themselves (barcodes, locations, beacons): `name: [...]`, only when not empty. */
  method WriteObjectArray(w: JsonWriter, name: string, items: seq<Json>)
    modifies w
    ensures w.tokens == old(w.tokens) + EncodeMembers(ArrayMember(name, items))
  {
    if |items| > 0 {
      ghost var t0 := w.tokens;
      w.WritePropertyName(name);
      w.WriteStartArray();
      ghost var pre := w.tokens;
      var i := 0;
      while i < |items|
        invariant 0 <= i <= |items|
        invariant w.tokens == pre + EncodeItems(items[..i])
      {
        w.WriteValue(items[i]);
        EncodeItemsPrefix(pre, items, i);
        i := i + 1;
      }
      w.WriteEndArray();
      assert items[..i] == items;
      ArrayMemberTokens(t0, name, items);
    }
  }

  /** The associatedStoreIdentifiers array: each identifier as a JSON number, only when the list is not empty. */
  method WriteStoreIdentifiers(w: JsonWriter, ids: seq<int>)
    modifies w
    ensures w.tokens == old(w.tokens) + EncodeMembers(ArrayMember("associatedStoreIdentifiers", NumbersJson(ids)))
  {
    if |ids| > 0 {
      ghost var t0 := w.tokens;
      ghost var items := NumbersJson(ids);
      w.WritePropertyName("associatedStoreIdentifiers");
      w.WriteStartArray();
      ghost var pre := w.tokens;
      var i := 0;
      while i < |ids|
        invariant 0 <= i <= |ids|
        invariant w.tokens == pre + EncodeItems(items[..i])
      {
        w.WriteNumberValue(ids[i]);
        EncodeItemsPrefix(pre, items, i);
        i := i + 1;
      }
      w.WriteEndArray();
      assert items[..i] == items;
      ArrayMemberTokens(t0, "associatedStoreIdentifiers", items);
    }
  }

  /** WritePreferredStyleSchemes: each scheme's name with its first character lower-cased, only when the list is not empty. */
  method WritePreferredStyleSchemes(w: JsonWriter, schemes: seq<PreferredStyleScheme>)
    modifies w
    ensures w.tokens == old(w.tokens) + EncodeMembers(ArrayMember("preferredStyleSchemes", SchemesJson(schemes)))
  {
    if |schemes| > 0 {
      ghost var t0 := w.tokens;
      ghost var items := SchemesJson(schemes);
      w.WritePropertyName("preferredStyleSchemes");
      w.WriteStartArray();
      ghost var pre := w.tokens;
      var i := 0;
      while i < |schemes|
        invariant 0 <= i <= |schemes|
        invariant w.tokens == pre + EncodeItems(items[..i])
      {
        w.WriteStringValue(Some(SchemeKey(schemes[i])));
        assert items[i] == JStr(SchemeKey(schemes[i]));
        EncodeItemsPrefix(pre, items, i);
        i := i + 1;
      }
      w.WriteEndArray();
      assert items[..i] == items;
      ArrayMemberTokens(t0, "preferredStyleSchemes", items);
    }
  }

  /**
    WriteSection: the section's name and an array of its fields, written
    even when the section is empty, as member `i` of the run `ms`.
   */
  method WriteSection(w: JsonWriter, sectionName: string, fields: seq<Field>, ghost ms: seq<Member>, ghost i: nat)
    requires i < |ms| && ms[i] == Member(sectionName, JArray(Bodies(fields)))
    modifies w
    ensures w.tokens + EncodeMembers(ms[i + 1..]) == old(w.tokens) + EncodeMembers(ms[i..])
  {
    ghost var t0 := w.tokens;
    ghost var items := Bodies(fields);
    w.WritePropertyName(sectionName);
    w.WriteStartArray();
    ghost var pre := w.tokens;
    var j := 0;
    while j < |fields|
      invariant 0 <= j <= |fields|
      invariant w.tokens == pre + EncodeItems(items[..j])
    {
      w.WriteValue(fields[j].body);
      EncodeItemsPrefix(pre, items, j);
      j := j + 1;
    }
    w.WriteEndArray();
    assert items[..j] == items;
    ArrayMemberTokens(t0, sectionName, items);
    MemberTokens(t0, sectionName, JArray(items));
    MemberStep(t0, ms, i);
  }

  /** The five WriteSection calls of Write, in order. */
  method WriteSections(w: JsonWriter, ss: Sections)
    modifies w
    ensures w.tokens == old(w.tokens) + EncodeMembers(SectionMembers(ss))
  {
    ghost var ms := SectionMembers(ss);
    WriteSection(w, "headerFields", ss.header, ms, 0);
    WriteSection(w, "primaryFields", ss.primary, ms, 1);
    WriteSection(w, "secondaryFields", ss.secondary, ms, 2);
    WriteSection(w, "auxiliaryFields", ss.auxiliary, ms, 3);
    WriteSection(w, "backFields", ss.back, ms, 4);
    assert ms[5..] == [] && ms[0..] == ms;
  }

  // ---------------------------------------------------------------------
  // The standard keys

  /** Part of WriteStandardKeys: identity keys and the format version, each written unconditionally. */
  method WriteIdentityKeys(w: JsonWriter, k: StandardKeys)
    modifies w
    ensures w.tokens == old(w.tokens) + EncodeMembers(IdentityMembers(k))
  {
    ghost var ms := IdentityMembers(k);
    WriteStringMember(w, "passTypeIdentifier", k.passTypeIdentifier, ms, 0);
    WriteNumberMember(w, "formatVersion", 1, ms, 1);
    WriteStringMember(w, "serialNumber", k.serialNumber, ms, 2);
    WriteOwnerKeys(w, k, ms);
    assert ms[6..] == [] && ms[0..] == ms;
  }

  /** The last three identity keys: description, organization and team. */
  method WriteOwnerKeys(w: JsonWriter, k: StandardKeys, ghost ms: seq<Member>)
    requires ms == IdentityMembers(k)
    modifies w
    ensures w.tokens + EncodeMembers(ms[6..]) == old(w.tokens) + EncodeMembers(ms[3..])
  {
    WriteStringMember(w, "description", k.description, ms, 3);
    WriteStringMember(w, "organizationName", k.organizationName, ms, 4);
    WriteStringMember(w, "teamIdentifier", k.teamIdentifier, ms, 5);
  }

  /** Part of WriteStandardKeys: sharing, store and display settings, each written unconditionally. */
  method WriteDisplayKeys(w: JsonWriter, k: StandardKeys)
    modifies w
    ensures w.tokens == old(w.tokens) + EncodeMembers(DisplayMembers(k))
  {
    ghost var ms := DisplayMembers(k);
    WriteBoolMember(w, "sharingProhibited", k.sharingProhibited, ms, 0);
    WriteNumberMember(w, "auxiliaryStoreIdentifiers", k.auxiliaryStoreIdentifiers, ms, 1);
    WriteBoolMember(w, "suppressHeaderDarkening", k.suppressHeaderDarkening, ms, 2);
    WriteBoolMember(w, "useAutomaticColors", k.useAutomaticColors, ms, 3);
    WriteStringMember(w, "footerBackgroundColor", k.footerBackgroundColor, ms, 4);
    assert ms[5..] == [] && ms[0..] == ms;
  }

  /** Part of WriteStandardKeys: the first event-guide links, each written unconditionally. */
  method WriteEventGuideKeys(w: JsonWriter, k: StandardKeys)
    modifies w
    ensures w.tokens == old(w.tokens) + EncodeMembers(EventGuideMembers(k))
  {
    ghost var ms := EventGuideMembers(k);
    WriteStringMember(w, "sellURL", k.sellURL, ms, 0);
    WriteStringMember(w, "transferURL", k.transferURL, ms, 1);
    WriteStringMember(w, "bagPolicyURL", k.bagPolicyURL, ms, 2);
    WriteStringMember(w, "orderFoodURL", k.orderFoodURL, ms, 3);
    WriteStringMember(w, "merchandiseURL", k.merchandiseURL, ms, 4);
    assert ms[5..] == [] && ms[0..] == ms;
  }

  /** Part of WriteStandardKeys: the information links, each written unconditionally. */
  method WriteInformationKeys(w: JsonWriter, k: StandardKeys)
    modifies w
    ensures w.tokens == old(w.tokens) + EncodeMembers(InformationMembers(k))
  {
    ghost var ms := InformationMembers(k);
    WriteStringMember(w, "transitInformationURL", k.transitInformationURL, ms, 0);
    WriteStringMember(w, "parkingInformationURL", k.parkingInformationURL, ms, 1);
    WriteStringMember(w, "directionsInformationURL", k.directionsInformationURL, ms, 2);
    WriteStringMember(w, "accessibilityURL", k.accessibilityURL, ms, 3);
    assert ms[4..] == [] && ms[0..] == ms;
  }

  /** Part of WriteStandardKeys: the remaining links and the venue contact keys, each written unconditionally. */
  method WriteVenueKeys(w: JsonWriter, k: StandardKeys)
    modifies w
    ensures w.tokens == old(w.tokens) + EncodeMembers(VenueMembers(k))
  {
    ghost var ms := VenueMembers(k);
    WriteStringMember(w, "purchaseParkingURL", k.purchaseParkingURL, ms, 0);
    WriteStringMember(w, "addOnURL", k.addOnURL, ms, 1);
    WriteStringMember(w, "contactVenueEmail", k.contactVenueEmail, ms, 2);
    WriteStringMember(w, "contactVenueWebsite", k.contactVenueWebsite, ms, 3);
    WriteStringMember(w, "contactVenuePhoneNumber", k.contactVenuePhoneNumber, ms, 4);
    assert ms[5..] == [] && ms[0..] == ms;
  }

  // ---------------------------------------------------------------------
  // Relevance entries

  /**
    The relevantDates entries, each validating and writing itself, up to
    the first that throws.
   */
  method WriteRelevantDateEntries(w: JsonWriter, rds: seq<RelevantDates.RelevantDate>) returns (err: Option<Error>)
    modifies w
    ensures w.tokens == old(w.tokens) + EncodeItems(WrittenDates(rds).0)
    ensures err == WrittenDates(rds).1
  {
    ghost var t0 := w.tokens;
    ghost var done: seq<Json> := [];
    assert rds[0..] == rds && done + WrittenDates(rds).0 == WrittenDates(rds).0;
    var i := 0;
    while i < |rds|
      invariant 0 <= i <= |rds|
      invariant WrittenDates(rds) == (done + WrittenDates(rds[i..]).0, WrittenDates(rds[i..]).1)
      invariant w.tokens == t0 + EncodeItems(done)
    {
      WrittenDatesStep(rds, i, done);
      err := RelevantDates.Write(rds[i], w);
      if err.Some? {
        return;
      }
      ghost var entry := RelevantDates.ToJson(rds[i]).value;
      EncodeItemsSnoc(t0, done, entry);
      done := done + [entry];
      i := i + 1;
    }
    assert rds[i..] == [];
    assert done + [] == done;
    return None;
  }

  /** One entry further into WrittenDates: the first failure ends it, a valid entry joins the written ones. */
  lemma WrittenDatesStep(rds: seq<RelevantDates.RelevantDate>, i: nat, done: seq<Json>)
    requires i < |rds|
    requires WrittenDates(rds) == (done + WrittenDates(rds[i..]).0, WrittenDates(rds[i..]).1)
    ensures RelevantDates.ToJson(rds[i]).Err? ==> WrittenDates(rds) == (done, Some(RelevantDates.ToJson(rds[i]).error))
    ensures RelevantDates.ToJson(rds[i]).Ok? ==>
      WrittenDates(rds) == ((done + [RelevantDates.ToJson(rds[i]).value]) + WrittenDates(rds[i + 1..]).0, WrittenDates(rds[i + 1..]).1)
  {
    var s, r := rds[i..], RelevantDates.ToJson(rds[i]);
    assert s[0] == rds[i] && s[1..] == rds[i + 1..];
    var later := WrittenDates(rds[i + 1..]);
    assert WrittenDates(s) == if r.Err? then ([], Some(r.error)) else ([r.value] + later.0, later.1);
    if r.Ok? {
      EntryRegroup(done, r.value, later.0);
    } else {
      assert done + [] == done;
    }
  }

  lemma EntryRegroup(done: seq<Json>, entry: Json, later: seq<Json>)
    ensures done + ([entry] + later) == (done + [entry]) + later
  {
  }

  /** The relevantDates array, only when the list is not empty; an entry that throws leaves the array open. */
  method WriteRelevantDates(w: JsonWriter, rds: seq<RelevantDates.RelevantDate>) returns (err: Option<Error>)
    modifies w
    ensures Wrote(old(w.tokens), w.tokens, RelevantDatesKeys(rds), err)
  {
    if |rds| == 0 {
      return None;
    }
    ghost var t0 := w.tokens;
    ghost var written := WrittenDates(rds);
    w.WritePropertyName("relevantDates");
    w.WriteStartArray();
    err := WriteRelevantDateEntries(w, rds);
    if err.Some? {
      OpenArrayTokens(t0, "relevantDates", EncodeItems(written.0));
      FailedWrote(t0, [PropName("relevantDates"), StartArr] + EncodeItems(written.0), err.value);
      return;
    }
    w.WriteEndArray();
    ArrayMemberTokens(t0, "relevantDates", written.0);
    CompleteWrote(t0, [Member("relevantDates", JArray(written.0))]);
  }

  /** One colour key of WriteAppearanceKeys: the name is written before ConvertColor runs. */
  method WriteColorKey(w: JsonWriter, name: string, color: NString) returns (err: Option<Error>)
    modifies w
    ensures Wrote(old(w.tokens), w.tokens, ColorKey(name, color), err)
  {
    if !IsNullOrEmpty(color) {
      ghost var t0 := w.tokens;
      w.WritePropertyName(name);
      var converted := Colors.ConvertColor(color.value);
      if converted.Err? {
        return Some(converted.error);
      }
      w.WriteStringValue(Some(converted.value));
      MemberTokens(t0, name, JStr(converted.value));
    }
    return None;
  }

  // ---------------------------------------------------------------------
  // The request

  lemma RegroupLast(a: seq<Member>, b: seq<Member>, c: seq<Member>, d: seq<Member>)
    ensures a + b + (c + d) == a + b + c + d
  {
  }

  class PassGeneratorRequest {
    var semanticTags: seq<SemanticTags.SemanticTag>
    /** PassTypeIdentifier ... AppLaunchURL: every key WriteStandardKeys reads. */
    var standard: StandardKeys
    var header: seq<Field>
    var primary: seq<Field>
    var secondary: seq<Field>
    var auxiliary: seq<Field>
    var back: seq<Field>
    /** The legacy single barcode, as the object its writer emits. */
    var barcode: Option<Json>
    var barcodes: seq<Json>
    var style: PassStyle
    var transitType: TransitType
    var preferredStyleSchemes: seq<PreferredStyleScheme>
    /** ForegroundColor, BackgroundColor, LabelColor, SuppressStripShine, GroupingIdentifier. */
    var appearance: Appearance
    var relevantDate: Option<DateTimeOffset>
    var relevantDates: seq<RelevantDates.RelevantDate>
    var locations: seq<Json>
    var beacons: seq<Json>
    var maxDistance: Option<int>
    var expirationDate: Option<DateTimeOffset>
    var voided: Option<bool>
    var authenticationToken: NString
    var webServiceUrl: NString
    /** The user-info dictionary, as the JSON text JsonSerializer makes of it; None for a null reference. */
    var userInfo: Option<string>
    var localizations: Localizations.Table
    var nfc: Option<Nfc>

    function Sections(): Sections
      reads this
    {
      FieldSections.Sections(header, primary, secondary, auxiliary, back)
    }

    /** Everything Write reads. */
    function Snapshot(): Pass
      reads this
    {
      Pass(semanticTags, standard, userInfo, relevantDate, relevantDates, maxDistance, locations, beacons,
           appearance, expirationDate, voided, barcodes, nfc, style, transitType, Sections(),
           preferredStyleSchemes, barcode, authenticationToken, webServiceUrl)
    }

    /**
      A new request: every list empty, an empty user-info dictionary, an
      empty localization table, every other property at its default (the
      enums at their first member).
     */
    constructor ()
      ensures Snapshot() == Pass([], NoStandardKeys, Some(EmptyUserInfo), None, [], None, [], [],
        NoAppearance, None, None, [], None, BoardingPass, PKTransitTypeAir, NoSections,
        [], None, None, None)
      ensures localizations == map[]
      ensures Distinct(Sections())
    {
      semanticTags := [];
      standard := NoStandardKeys;
      header, primary, secondary, auxiliary, back := [], [], [], [], [];
      barcode := None;
      barcodes := [];
      style := BoardingPass;
      transitType := PKTransitTypeAir;
      preferredStyleSchemes := [];
      appearance := NoAppearance;
      relevantDate := None;
      relevantDates := [];
      locations := [];
      beacons := [];
      maxDistance := None;
      expirationDate := None;
      voided := None;
      authenticationToken := None;
      webServiceUrl := None;
      userInfo := Some(EmptyUserInfo);
      localizations := map[];
      nfc := None;
      new;
      assert Sections().All() == [];
    }

    // -------------------------------------------------------------------
    // Building the request

    /** EnsureFieldKeyIsUnique: the duplicate-key exception when any of the five sections already uses the key. */
    method EnsureFieldKeyIsUnique(key: string) returns (err: Option<Error>)
      ensures err.Some? <==> HasKey(Sections().All(), key)
      ensures err.Some? ==> err.value == DuplicateFieldKey(key)
    {
      KeyInUseAll(Sections(), key);
      if HasKey(header, key) || HasKey(primary, key) || HasKey(secondary, key) || HasKey(auxiliary, key) || HasKey(back, key) {
        return Some(DuplicateFieldKey(key));
      }
      return None;
    }

    /**
      AddHeaderField, AddPrimaryField, AddSecondaryField, AddAuxiliaryField
      and AddBackField: check the key, then append to the one section.
     */
    method AddField(section: Section, field: Field) returns (err: Option<Error>)
      modifies this
      ensures Add(old(Sections()), section, field).Err? ==>
        err == Some(DuplicateFieldKey(field.key)) && Snapshot() == old(Snapshot())
      ensures Add(old(Sections()), section, field).Ok? ==>
        err.None? && Snapshot() == old(Snapshot()).(sections := Add(old(Sections()), section, field).value)
      ensures old(Distinct(Sections())) ==> Distinct(Sections())
      ensures localizations == old(localizations)
    {
      if Distinct(Sections()) {
        AddPreservesDistinct(Sections(), section, field);
      }
      KeyInUseAll(Sections(), field.key);
      err := EnsureFieldKeyIsUnique(field.key);
      if err.Some? {
        return;
      }
      AppendField(section, field);
    }

    /** The list the Add*Field method owns gets the field at its end. */
    method AppendField(section: Section, field: Field)
      modifies this
      ensures Snapshot() == old(Snapshot()).(sections := Append(old(Sections()), section, field))
      ensures localizations == old(localizations)
    {
      match section {
        case Header => header := header + [field];
        case Primary => primary := primary + [field];
        case Secondary => secondary := secondary + [field];
        case Auxiliary => auxiliary := auxiliary + [field];
        case Back => back := back + [field];
      }
    }

    /** AddBarcode (both overloads): one more entry at the end of Barcodes. */
    method AddBarcode(barcode': Json)
      modifies this
      ensures Snapshot() == old(Snapshot()).(barcodes := old(barcodes) + [barcode'])
      ensures localizations == old(localizations)
    {
      barcodes := barcodes + [barcode'];
    }

    /** SetBarcode: replaces the legacy single barcode. */
    method SetBarcode(barcode': Json)
      modifies this
      ensures Snapshot() == old(Snapshot()).(barcode := Some(barcode'))
      ensures localizations == old(localizations)
    {
      barcode := Some(barcode');
    }

    /** AddLocation (both overloads): one more relevant location at the end. */
    method AddLocation(location: Json)
      modifies this
      ensures Snapshot() == old(Snapshot()).(locations := old(locations) + [location])
      ensures localizations == old(localizations)
    {
      locations := locations + [location];
    }

    /** AddBeacon (all three overloads): one more relevant beacon at the end. */
    method AddBeacon(beacon: Json)
      modifies this
      ensures Snapshot() == old(Snapshot()).(beacons := old(beacons) + [beacon])
      ensures localizations == old(localizations)
    {
      beacons := beacons + [beacon];
    }

    /** AddLocalization: find or create the language's table, then set the key in it. */
    method AddLocalization(languageCode: string, key: string, value: string)
      modifies this
      ensures localizations == Localizations.AddLocalization(old(localizations), languageCode, key, value)
      ensures Snapshot() == old(Snapshot())
    {
      var values: Localizations.Caseless<string>;
      var found := Localizations.Find(localizations, languageCode);
      if found.None? {
        values := map[];
        localizations := Localizations.Put(localizations, languageCode, values);
      } else {
        values := found.value;
      }
      localizations := Localizations.Put(localizations, languageCode, Localizations.Put(values, key, value));
    }

    // -------------------------------------------------------------------
    // Writing pass.json

    /** WriteStandardKeys. */
    method WriteStandardKeys(w: JsonWriter)
      modifies w
      ensures w.tokens == old(w.tokens) + EncodeMembers(StandardMembers(standard))
    {
      var k := standard;
      ghost var t0 := w.tokens;
      WriteIdentityKeys(w, k);
      ghost var done := IdentityMembers(k);
      WriteDisplayKeys(w, k);
      AppendMembers(t0, done, DisplayMembers(k));
      done := done + DisplayMembers(k);
      WriteEventGuideKeys(w, k);
      AppendMembers(t0, done, EventGuideMembers(k));
      done := done + EventGuideMembers(k);
      WriteInformationKeys(w, k);
      AppendMembers(t0, done, InformationMembers(k));
      done := done + InformationMembers(k);
      WriteVenueKeys(w, k);
      AppendMembers(t0, done, VenueMembers(k));
      done := done + VenueMembers(k);
      WriteOptionalString(w, "logoText", k.logoText);
      AppendMembers(t0, done, OptionalString("logoText", k.logoText));
      done := done + OptionalString("logoText", k.logoText);
      WriteStoreIdentifiers(w, k.associatedStoreIdentifiers);
      AppendMembers(t0, done, ArrayMember("associatedStoreIdentifiers", NumbersJson(k.associatedStoreIdentifiers)));
      done := done + ArrayMember("associatedStoreIdentifiers", NumbersJson(k.associatedStoreIdentifiers));
      WriteOptionalString(w, "appLaunchURL", k.appLaunchURL);
      AppendMembers(t0, done, OptionalString("appLaunchURL", k.appLaunchURL));
    }

    /** WriteUserInfo: the serialised dictionary, verbatim, unless the reference is null. */
    method WriteUserInfo(w: JsonWriter)
      modifies w
      ensures w.tokens == old(w.tokens) + EncodeMembers(UserInfoMembers(userInfo))
    {
      if userInfo.Some? {
        ghost var t0 := w.tokens;
        w.WritePropertyName("userInfo");
        w.WriteRawValue(userInfo.value);
        MemberTokens(t0, "userInfo", JRaw(userInfo.value));
      }
    }

    /** WriteSemantics, WriteStandardKeys and WriteUserInfo: the stages that cannot throw. */
    method WriteHead(w: JsonWriter)
      modifies w
      ensures w.tokens == old(w.tokens) + EncodeMembers(Head(Snapshot()))
    {
      ghost var t0 := w.tokens;
      SemanticTags.WriteSemantics(semanticTags, w);
      ghost var done := SemanticTags.SemanticsMembers(semanticTags);
      WriteStandardKeys(w);
      AppendMembers(t0, done, StandardMembers(standard));
      done := done + StandardMembers(standard);
      WriteUserInfo(w);
      AppendMembers(t0, done, UserInfoMembers(userInfo));
    }

    /** WriteRelevanceKeys: a relevance entry that is too long throws. */
    method WriteRelevanceKeys(w: JsonWriter) returns (err: Option<Error>)
      modifies w
      ensures Wrote(old(w.tokens), w.tokens, RelevanceKeys(Snapshot()), err)
    {
      ghost var t0 := w.tokens;
      WriteOptionalDate(w, "relevantDate", relevantDate);
      ghost var e := Complete(DateMember("relevantDate", relevantDate));
      CompleteWrote(t0, e.members);
      ghost var t1 := w.tokens;
      err := WriteRelevantDates(w, relevantDates);
      ThenWrote(t0, t1, w.tokens, e, RelevantDatesKeys(relevantDates), err);
      e := e.Then(RelevantDatesKeys(relevantDates));
      if err.Some? {
        return;
      }
      t1 := w.tokens;
      if maxDistance.Some? {
        w.WritePropertyName("maxDistance");
        w.WriteStringValue(Some(IntText(maxDistance.value)));
        MemberTokens(t1, "maxDistance", JStr(IntText(maxDistance.value)));
      }
      ghost var done := MaxDistanceMembers(maxDistance);
      WriteObjectArray(w, "locations", locations);
      AppendMembers(t1, done, ArrayMember("locations", locations));
      done := done + ArrayMember("locations", locations);
      WriteObjectArray(w, "beacons", beacons);
      AppendMembers(t1, done, ArrayMember("beacons", beacons));
      done := done + ArrayMember("beacons", beacons);
      CompleteWrote(t1, done);
      ThenWrote(t0, t1, w.tokens, e, Complete(done), None);
    }

    /** WriteAppearanceKeys: a colour ConvertColor rejects throws. */
    method WriteAppearanceKeys(w: JsonWriter) returns (err: Option<Error>)
      modifies w
      ensures Wrote(old(w.tokens), w.tokens, AppearanceKeys(appearance), err)
    {
      var a := appearance;
      ghost var t0 := w.tokens;
      err := WriteColorKey(w, "foregroundColor", a.foregroundColor);
      if err.Some? {
        return;
      }
      ghost var e := ColorKey("foregroundColor", a.foregroundColor);
      ghost var t1 := w.tokens;
      err := WriteColorKey(w, "backgroundColor", a.backgroundColor);
      ThenWrote(t0, t1, w.tokens, e, ColorKey("backgroundColor", a.backgroundColor), err);
      e := e.Then(ColorKey("backgroundColor", a.backgroundColor));
      if err.Some? {
        return;
      }
      t1 := w.tokens;
      err := WriteColorKey(w, "labelColor", a.labelColor);
      ThenWrote(t0, t1, w.tokens, e, ColorKey("labelColor", a.labelColor), err);
      e := e.Then(ColorKey("labelColor", a.labelColor));
      if err.Some? {
        return;
      }
      t1 := w.tokens;
      WriteOptionalBool(w, "suppressStripShine", a.suppressStripShine);
      WriteOptionalString(w, "groupingIdentifier", a.groupingIdentifier);
      AppendMembers(t1, BoolMember("suppressStripShine", a.suppressStripShine), OptionalString("groupingIdentifier", a.groupingIdentifier));
      CompleteWrote(t1, AppearanceTail(a));
      ThenWrote(t0, t1, w.tokens, e, Complete(AppearanceTail(a)), None);
    }

    /** WriteExpirationKeys. */
    method WriteExpirationKeys(w: JsonWriter)
      modifies w
      ensures w.tokens == old(w.tokens) + EncodeMembers(ExpirationMembers(Snapshot()))
    {
      ghost var t0 := w.tokens;
      WriteOptionalDate(w, "expirationDate", expirationDate);
      WriteOptionalBool(w, "voided", voided);
      AppendMembers(t0, DateMember("expirationDate", expirationDate), BoolMember("voided", voided));
    }

    /** WriteNfcKeys: Write calls it only when Nfc is set. */
    method WriteNfcKeys(w: JsonWriter)
      requires nfc.Some?
      modifies w
      ensures w.tokens == old(w.tokens) + EncodeMembers(NfcMembers(nfc))
    {
      var n := nfc.value;
      if !IsNullOrEmpty(n.message) {
        ghost var t0 := w.tokens;
        w.WritePropertyName("nfc");
        w.WriteStartObject();
        ghost var t1 := w.tokens;
        w.WritePropertyName("message");
        w.WriteStringValue(n.message);
        MemberTokens(t1, "message", StrOrNull(n.message));
        WriteOptionalString(w, "encryptionPublicKey", n.encryptionPublicKey);
        ghost var inner := [Member("message", StrOrNull(n.message))];
        AppendMembers(t1, inner, OptionalString("encryptionPublicKey", n.encryptionPublicKey));
        inner := inner + OptionalString("encryptionPublicKey", n.encryptionPublicKey);
        w.WriteEndObject();
        ObjectMemberTokens(t0, "nfc", inner);
      }
    }

    /**
      OpenStyleSpecificKey, the five WriteSection calls, transitType for a
      boarding pass, and CloseStyleSpecificKey.
     */
    method WriteStyleDictionary(w: JsonWriter)
      modifies w
      ensures w.tokens == old(w.tokens) + EncodeMembers([Member(WrapperKey(style), StyleObject(Snapshot()))])
    {
      ghost var t0 := w.tokens;
      w.WritePropertyName(WrapperKey(style));
      w.WriteStartObject();
      ghost var t1 := w.tokens;
      WriteSections(w, Sections());
      ghost var t2 := w.tokens;
      if style == BoardingPass {
        w.WritePropertyName("transitType");
        w.WriteStringValue(Some(TransitName(transitType)));
        MemberTokens(t2, "transitType", JStr(TransitName(transitType)));
      }
      assert w.tokens == t2 + EncodeMembers(TransitMembers(style, transitType));
      AppendMembers(t1, SectionMembers(Sections()), TransitMembers(style, transitType));
      w.WriteEndObject();
      ObjectMemberTokens(t0, WrapperKey(style), SectionMembers(Sections()) + TransitMembers(style, transitType));
    }

    /** WriteBarcode: the legacy single barcode, unless it is null. */
    method WriteBarcode(w: JsonWriter)
      modifies w
      ensures w.tokens == old(w.tokens) + EncodeMembers(BarcodeMember(barcode))
    {
      if barcode.Some? {
        ghost var t0 := w.tokens;
        w.WritePropertyName("barcode");
        w.WriteValue(barcode.value);
        MemberTokens(t0, "barcode", barcode.value);
      }
    }

    /** WriteUrls: both web-service keys, or neither, depending only on the token. */
    method WriteUrls(w: JsonWriter)
      modifies w
      ensures w.tokens == old(w.tokens) + EncodeMembers(UrlMembers(authenticationToken, webServiceUrl))
    {
      if !IsNullOrEmpty(authenticationToken) {
        ghost var ms := UrlMembers(authenticationToken, webServiceUrl);
        WriteStringMember(w, "authenticationToken", authenticationToken, ms, 0);
        WriteStringMember(w, "webServiceURL", webServiceUrl, ms, 1);
        assert ms[2..] == [] && ms[0..] == ms;
      }
    }

    /** WriteExpirationKeys, WriteBarcodes, WriteNfcKeys and the style dictionary. */
    method WriteBody(w: JsonWriter)
      modifies w
      ensures w.tokens == old(w.tokens) + EncodeMembers(Body(Snapshot()))
    {
      ghost var p := Snapshot();
      ghost var t0 := w.tokens;
      WriteExpirationKeys(w);
      ghost var done := ExpirationMembers(p);
      WriteObjectArray(w, "barcodes", barcodes);
      AppendMembers(t0, done, ArrayMember("barcodes", barcodes));
      done := done + ArrayMember("barcodes", barcodes);
      WriteNfcAndStyle(w);
      assert Snapshot() == p;
      AppendMembers(t0, done, NfcMembers(nfc) + [Member(WrapperKey(style), StyleObject(p))]);
      RegroupLast(ExpirationMembers(p), ArrayMember("barcodes", barcodes), NfcMembers(nfc), [Member(WrapperKey(style), StyleObject(p))]);
    }

    /** The NFC keys, when Nfc is set, then the style dictionary. */
    method WriteNfcAndStyle(w: JsonWriter)
      modifies w
      ensures w.tokens == old(w.tokens) + EncodeMembers(NfcMembers(nfc) + [Member(WrapperKey(style), StyleObject(Snapshot()))])
    {
      ghost var t0 := w.tokens;
      if nfc.Some? {
        WriteNfcKeys(w);
      }
      WriteStyleDictionary(w);
      AppendMembers(t0, NfcMembers(nfc), [Member(WrapperKey(style), StyleObject(Snapshot()))]);
    }

    /** WritePreferredStyleSchemes, WriteBarcode and WriteUrls. */
    method WriteTrailer(w: JsonWriter)
      modifies w
      ensures w.tokens == old(w.tokens) + EncodeMembers(Trailer(Snapshot()))
    {
      ghost var t0 := w.tokens;
      WritePreferredStyleSchemes(w, preferredStyleSchemes);
      ghost var done := ArrayMember("preferredStyleSchemes", SchemesJson(preferredStyleSchemes));
      WriteBarcode(w);
      AppendMembers(t0, done, BarcodeMember(barcode));
      done := done + BarcodeMember(barcode);
      WriteUrls(w);
      AppendMembers(t0, done, UrlMembers(authenticationToken, webServiceUrl));
    }

    /**
      WriteSemantics, WriteStandardKeys, WriteUserInfo, WriteRelevanceKeys
      and WriteAppearanceKeys: every stage up to the last that can throw.
     */
    method WriteCheckedStages(w: JsonWriter) returns (err: Option<Error>)
      modifies w
      ensures Wrote(old(w.tokens), w.tokens,
        Complete(Head(Snapshot())).Then(RelevanceKeys(Snapshot())).Then(AppearanceKeys(appearance)), err)
    {
      ghost var p := Snapshot();
      ghost var t0 := w.tokens;
      WriteHead(w);
      CompleteWrote(t0, Head(p));
      ghost var t1 := w.tokens;
      err := WriteRelevanceKeys(w);
      ThenWrote(t0, t1, w.tokens, Complete(Head(p)), RelevanceKeys(p), err);
      ghost var e := Complete(Head(p)).Then(RelevanceKeys(p));
      if err.Some? {
        ThenStops(e, AppearanceKeys(appearance));
        return;
      }
      t1 := w.tokens;
      err := WriteAppearanceKeys(w);
      ThenWrote(t0, t1, w.tokens, e, AppearanceKeys(appearance), err);
    }

    /**
      Write: the whole pass.json, stage by stage; an exception in a stage
      ends the writing with the tokens written so far.
     */
    method Write(w: JsonWriter) returns (err: Option<Error>)
      modifies w
      ensures w.tokens == old(w.tokens) + Written(Document(Snapshot()))
      ensures err == ErrorOf(Document(Snapshot()))
    {
      ghost var p := Snapshot();
      ghost var start := w.tokens;
      w.WriteStartObject();
      ghost var t0 := w.tokens;
      err := WriteCheckedStages(w);
      ghost var e := Complete(Head(p)).Then(RelevanceKeys(p)).Then(AppearanceKeys(p.appearance));
      if err.Some? {
        ThenStops(e, Complete(Body(p) + Trailer(p)));
        WrittenTokens(start, e);
        return;
      }
      ghost var t1 := w.tokens;
      WriteBody(w);
      WriteTrailer(w);
      AppendMembers(t1, Body(p), Trailer(p));
      CompleteWrote(t1, Body(p) + Trailer(p));
      ThenWrote(t0, t1, w.tokens, e, Complete(Body(p) + Trailer(p)), None);
      w.WriteEndObject();
      WrittenTokens(start, Document(p));
    }
  }
}
