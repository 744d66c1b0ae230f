# pass.json emission of dotnet-passbook, modelled in Dafny

dotnet-passbook builds Apple Wallet passes. Its `PassGeneratorRequest` holds
what goes into a pass. `PassGeneratorRequest.Write` streams that request into
`pass.json` through a forward-only `Utf8JsonWriter`. This project models that
emitter and the pieces it calls:

- **`Json`**: the writer. `JsonWriter` is a class whose token log `tokens`
  only grows. JSON values are a `Json` tree; `Encode` turns a tree into
  tokens and `Decode` reads them back. The round trip is proved.
- **`Generator`**: the request. `PassGeneratorRequest` is a class whose
  fields are updated in place by the `Add*`/`Set*` methods. Its `Write`
  method issues the same writer calls, in the same order, as the C# code.
  It is proved to write exactly `Written(Document(Snapshot()))`.
- **`PassDocuments`**: the specification. `Document` is a pure function that
  gives, for a pass, the top-level members the write produces. When a stage
  throws, it also gives the tokens already written and the exception. The
  key-order, presence and failure properties of `pass.json` are proved as
  lemmas about `Document`.
- **`RelevantDates`**: the single-instant and interval relevant dates. Their
  writer rejects an interval longer than 24 hours.
- **`DateTimes`** and **`JsonWriterExtensions`**: the
  `yyyy-MM-ddTHH:mm:ssK` rendering and its reader.
- **`Colors`**: `ConvertColor`, which turns `#rrggbb` into `rgb(r,g,b)`.
- **`SemanticTags`**: the scalar semantic tags, and `wifiAccess` with its
  networks.
- **`Images`**: `PassbookImage` and its file names.
- **`FieldSections`** and **`Localizations`**: the duplicate-field-key rule,
  and the case-insensitive localization table.

An exception in the C# code is a `Result`/`Option` error in the model. A
stage that throws stops the write. The tokens written before the throw stay
in the writer. For example, the `"foregroundColor"` property name is already
written when `ConvertColor` throws, and the object is never closed.

`ConvertColor` follows the code, not the documentation:

- Only `#` strings of length 3 or of at least 6 reach the hex branches;
  other lengths are rejected as an invalid length.
- `"#fff"` (length 4) is rejected as an invalid length; it is not expanded.
- `"#12"` (length 3) fails on an out-of-range substring.
- A string of length 6 fails the same way.
- Hex channels are parsed with .NET's `HexNumber` rules: surrounding white
  space is allowed.

## Model

| member | source | states |
|---|---|---|
| Json.DecodeEncode | Passbook.Generator/PassGeneratorRequest.cs:473-529 | every JSON tree the writer emits reads back as the same tree, so each write contract below is a statement about the decoded pass.json |
| Json.ReadEncode | Passbook.Generator/PassGeneratorRequest.cs:473-529 | reading the tokens of any value followed by any suffix yields that value and leaves exactly the suffix |
| Json.ReadEncodeMembers | Passbook.Generator/PassGeneratorRequest.cs:473-529 | an object's member tokens read back as the same members, in the same order |
| Json.ReadEncodeItems | Passbook.Generator/PassGeneratorRequest.cs:539-550 | an array's item tokens read back as the same items, in order |
| Json.KeysAppend | Passbook.Generator/PassGeneratorRequest.cs:473-529 | the key list of consecutively written members is the concatenation of their key lists |
| Json.EncodeMembersAppend | Passbook.Generator/PassGeneratorRequest.cs:473-529 | writing two runs of members one after the other yields the tokens of the concatenated run |
| Json.EncodeItemsAppend | Passbook.Generator/PassGeneratorRequest.cs:605-619 | writing two runs of array items one after the other yields the tokens of the concatenated run |
| Json.JsonWriter.WriteStringValue | Passbook.Generator/PassGeneratorRequest.cs:626-701 | a null string is written as JSON null, any other string as that string |
| Json.JsonWriter.WriteValue | Passbook.Generator/PassGeneratorRequest.cs:601 | writing a value appends exactly its encoding |
| Json.WriteStringMember | Passbook.Generator/PassGeneratorRequest.cs:628-629 | a property name plus a string value writes one member, the next member of the planned member list |
| Json.WriteNumberMember | Passbook.Generator/PassGeneratorRequest.cs:631-632 | a property name plus a number writes one member of the planned list |
| Json.WriteBoolMember | Passbook.Generator/PassGeneratorRequest.cs:646-647 | a property name plus a boolean writes one member of the planned list |
| JsonWriterExtensions.WriteDateTimeValue | Passbook.Generator/Extensions/Utf8JsonWriterExtensions.cs:8-11 | appends one string token, the `yyyy-MM-ddTHH:mm:ssK` rendering of the date |
| DateTimes.Render | Passbook.Generator/Extensions/Utf8JsonWriterExtensions.cs:10 | the `yyyy-MM-ddTHH:mm:ssK` text: zero-padded year, month, day, hour, minute, second, then the signed `hh:mm` offset (its properties are in the rows below) |
| DateTimes.RenderExample | Passbook.Generator.Tests/SemanticTagsTests.cs:79 | 2025-08-10 09:10:00 at +03:00 renders as `2025-08-10T09:10:00+03:00` |
| DateTimes.RenderShape | Passbook.Generator/Extensions/Utf8JsonWriterExtensions.cs:10 | the rendering has 25 characters: digits, with `-`, `T` and `:` at fixed positions, and a `-` offset sign exactly for negative offsets |
| DateTimes.RenderSlices | Passbook.Generator/Extensions/Utf8JsonWriterExtensions.cs:10 | each component is zero-padded at its fixed position; the offset is written as signed hours:minutes |
| DateTimes.ParseRender | Passbook.Generator/Extensions/Utf8JsonWriterExtensions.cs:10 | reading the rendering back gives the date-time and offset, losing only the sub-second ticks |
| DateTimes.RenderInjective | Passbook.Generator/Extensions/Utf8JsonWriterExtensions.cs:10 | two date-times render alike exactly when they agree to the second, offset included |
| RelevantDates.Single | Passbook.Generator/RelevantDate.cs:12-15 | a single-instant relevant date has that instant and no end |
| RelevantDates.Span | Passbook.Generator/RelevantDate.cs:20-24 | an interval relevant date keeps both ends |
| RelevantDates.TooLong | Passbook.Generator/RelevantDate.cs:53-59 | an interval whose end is more than 24 hours of ticks after its start, compared in UTC |
| RelevantDates.ToJson | Passbook.Generator/RelevantDate.cs:30-59 | the validation error for a too-long interval; otherwise the object `{relevantDate}` or `{startDate, endDate}` (see RejectsExactly, IntervalKeys) |
| RelevantDates.Write | Passbook.Generator/RelevantDate.cs:30-51 | a rejected date writes nothing and reports the error; otherwise writes the object of its members |
| RelevantDates.RejectsExactly | Passbook.Generator/RelevantDate.cs:53-59 | rejected exactly when it is an interval whose end is more than 24 hours after its start (strictly), with the interval-too-long error |
| RelevantDates.SingleAlwaysValid | Passbook.Generator/RelevantDate.cs:36-40 | a single instant is never rejected and is written as the one key `relevantDate` |
| RelevantDates.ExactDayAccepted | Passbook.Generator/RelevantDate.cs:55 | an interval of exactly 24 hours is accepted |
| RelevantDates.NegativeSpanAccepted | Passbook.Generator/RelevantDate.cs:53-59 | an interval whose end is before its start is accepted |
| RelevantDates.IntervalKeys | Passbook.Generator/RelevantDate.cs:41-48 | an accepted interval is written as `startDate` then `endDate` |
| RelevantDates.WrittenEntryReadsBack | Passbook.Generator/RelevantDate.cs:30-51 | the written entry decodes to its members, and each date string reads back as its date-time |
| RelevantDates.ExampleIntervalAccepted | Passbook.Generator.Tests/RelevanceKeysTests.cs:42-63 | 06:30 to 23:00 on 2025-10-31 at +04:00 is accepted |
| RelevantDates.ExampleDayAndOneSecondRejected | Passbook.Generator/RelevantDate.cs:55 | 24 hours and one second is rejected with the interval-too-long error |
| Colors.ConvertColor | Passbook.Generator/PassGeneratorRequest.cs:849-878 | the branches of the code: pass-through without `#`; length 3 parses one-character channels then fails on `Substring(3, 1)`; length 6 or more parses two-character channels (length 6 fails on `Substring(5, 2)`); other lengths are invalid (the rows below state the properties) |
| Text.ParseHexNumber | Passbook.Generator/PassGeneratorRequest.cs:857-865 | `int.Parse` with `HexNumber`: optional leading and trailing white space, at least one hex digit, trailing NULs tolerated; anything else is the format error (see ParseHex2, HexChannelBound) |
| Colors.PassThrough | Passbook.Generator/PassGeneratorRequest.cs:874-877 | a colour that does not start with `#` is written unchanged |
| Colors.ShortHashColorFails | Passbook.Generator/PassGeneratorRequest.cs:853-870 | every `#` colour shorter than 7 characters fails: lengths 1, 2, 4 and 5 with the invalid-length error; lengths 3 and 6 on parsing or substring range |
| Colors.LongHashColor | Passbook.Generator/PassGeneratorRequest.cs:861-866 | a `#` colour of 7 or more characters converts exactly when its three two-character channels parse; each is at most 255 and the result reads back as those channels; characters after the seventh are ignored |
| Colors.LongHashShape | Passbook.Generator/PassGeneratorRequest.cs:861-866 | the channels are parsed red, green, blue, and the first failure is the error |
| Colors.ConvertHexTriple | Passbook.Generator/PassGeneratorRequest.cs:861-866 | `#` plus the hex of any three channels converts to `rgb(r,g,b)` of those channels |
| Colors.ParseRgbText | Passbook.Generator/PassGeneratorRequest.cs:872 | the `rgb(r,g,b)` text reads back as its three numbers |
| Colors.RgbTextInjective | Passbook.Generator/PassGeneratorRequest.cs:872 | distinct channel triples give distinct `rgb` texts |
| Colors.ConvertExample | Passbook.Generator/PassGeneratorRequest.cs:849-878 | `#17BB52` converts to `rgb(23,187,82)` |
| Colors.ShortFormRejected | Passbook.Generator/PassGeneratorRequest.cs:867-870 | `#fff` is rejected as an invalid length |
| Colors.ThreeCharacterColorRejected | Passbook.Generator/PassGeneratorRequest.cs:855-860 | `#12` fails on the substring range |
| Colors.RgbNotationPassesThrough | Passbook.Generator/PassGeneratorRequest.cs:874-877 | `rgb(1,2,3)` passes through unchanged |
| Styles.WrapperKey | Passbook.Generator/PassGeneratorRequest.cs:804-810 | the style's name with its first character lower-cased |
| Styles.SchemeKey | Passbook.Generator/PassGeneratorRequest.cs:794-798 | the scheme's name with its first character lower-cased |
| Styles.WrapperKeyFirstCharOnly | Passbook.Generator/PassGeneratorRequest.cs:804-810 | the style key is the style name with only its first character lower-cased |
| Styles.WrapperKeyInjective | Passbook.Generator/PassGeneratorRequest.cs:804-810 | different pass styles open different style keys |
| Styles.WrapperKeys | Passbook.Generator/PassGeneratorRequest.cs:804-810 | the five style keys are `boardingPass`, `coupon`, `eventTicket`, `generic`, `storeCard` |
| Styles.SchemeKeyFirstCharOnly | Passbook.Generator/PassGeneratorRequest.cs:794-798 | a scheme's key is its name with only the first character lower-cased, and distinct schemes get distinct keys |
| Styles.SchemeKeys | Passbook.Generator.Tests/StylingKeysTests.cs:39-42 | the schemes are written as `eventTicket` and `posterEventTicket` |
| FieldSections.Add | Passbook.Generator/PassGeneratorRequest.cs:373-413 | the duplicate-key error when any section uses the key, otherwise the sections with the field appended to its own (see AddRejectsUsedKey, AddAppendsFreshKey) |
| FieldSections.AddRejectsUsedKey | Passbook.Generator/PassGeneratorRequest.cs:403-413 | adding a field whose key is used in any of the five sections fails with the duplicate-key error |
| FieldSections.AddAppendsFreshKey | Passbook.Generator/PassGeneratorRequest.cs:373-401 | a fresh key is appended to its own section only; the other sections are unchanged |
| FieldSections.AddPreservesDistinct | Passbook.Generator/PassGeneratorRequest.cs:373-413 | adding through the checked methods keeps field keys distinct across all sections |
| FieldSections.AddAllDistinct | Passbook.Generator/PassGeneratorRequest.cs:373-413 | any sequence of checked additions keeps the keys distinct |
| FieldSections.NewRequestDistinct | Passbook.Generator/PassGeneratorRequest.cs:16-33 | a new request's sections, after any checked additions, have distinct keys |
| FieldSections.KeyInUseAll | Passbook.Generator/PassGeneratorRequest.cs:403-413 | a key is in use in some section exactly when it occurs among all the fields |
| FieldSections.HasKeyAppend | Passbook.Generator/PassGeneratorRequest.cs:405-409 | a key occurs in two field lists together exactly when it occurs in one of them |
| Localizations.AddLocalization | Passbook.Generator/PassGeneratorRequest.cs:455-466 | finds the language's table ignoring case, or makes an empty one, then sets the key in it (see LookupAfterAdd) |
| Localizations.Put | Passbook.Generator/PassGeneratorRequest.cs:462-465 | the ignore-case indexer setter: replaces the value of an existing entry and keeps its first spelling, or adds the entry |
| Localizations.LookupAfterAdd | Passbook.Generator/PassGeneratorRequest.cs:455-466 | after an add, a lookup under a case-insensitively equal language and key gives the new value; every other lookup is unchanged |
| Localizations.AddTwiceKeepsLast | Passbook.Generator/PassGeneratorRequest.cs:465 | a second value for the same key replaces the first |
| Localizations.FirstSpellingKept | Passbook.Generator/PassGeneratorRequest.cs:459-463 | a language code differing only in case reuses the existing table and keeps its first spelling |
| Localizations.NewLanguage | Passbook.Generator/PassGeneratorRequest.cs:459-465 | an unknown language code gets a new table holding only the new entry |
| Localizations.FoldCaseEqual | Passbook.Generator/PassGeneratorRequest.cs:29 | two codes are the same key exactly when they have the same length and agree character by character after upper-casing |
| SemanticTags.WriteNetwork | Passbook.Generator/Tags/WifiNetwork.cs:5-15 | a network is written as an object with `ssid` then `password` |
| SemanticTags.WriteWifiAccess | Passbook.Generator/Tags/wifiAccess.cs:8-18 | writes the array of the networks' objects, in order |
| SemanticTags.WifiAccessReadsBack | Passbook.Generator/Tags/wifiAccess.cs:8-18 | `wifiAccess` decodes to one object per network, each with `ssid` and `password` holding that network's strings |
| SemanticTags.WifiAccessExample | Passbook.Generator.Tests/SemanticTagsTests.cs:118-132 | two networks: the first reads back as `wifi-entrance` / `834AX5?15` |
| SemanticTags.WriteTag | Passbook.Generator/PassGeneratorRequest.cs:621-624 | a tag writes one member under its wire key with its value; the per-tag write of the tag container is assumed, as noted under Left out |
| SemanticTags.WriteTags | Passbook.Generator/PassGeneratorRequest.cs:621-624 | the tags are written as members in insertion order; the container's loop is assumed, as noted under Left out |
| SemanticTags.WriteSemantics | Passbook.Generator/PassGeneratorRequest.cs:621-624 | writes the `semantics` object of all the tags, or nothing when there are none |
| SemanticTags.WireKey | Passbook.Generator/Tags/eventStartDate.cs:5-22 | the key each tag class passes to its base class: one per string-valued and date-valued class, `tailgatingAllowed`, `wifiAccess`; both constructors of eventStartDate/eventEndDate share a key |
| SemanticTags.TagValue | Passbook.Generator/Tags/TailgatingAllowed.cs:6 | the tag's written value: a string (null as null), a boolean, the rendered date-time, or the Wi-Fi array |
| SemanticTags.VenueCloseDateExample | Passbook.Generator.Tests/SemanticTagsTests.cs:79 | a VenueCloseDate of 2025-08-10 09:10 at +03:00 is the member `venueCloseDate` = `2025-08-10T09:10:00+03:00` |
| SemanticTags.SemanticsReadBack | Passbook.Generator.Tests/SemanticTagsTests.cs:79 | `semantics` decodes to the tags' members in order under their wire keys; a date tag reads back as its date-time, offset included |
| SemanticTags.NoTagsNoSemantics | Passbook.Generator/PassGeneratorRequest.cs:621-624 | no `semantics` member is written exactly when there are no tags |
| SemanticTags.EventDateKeysShared | Passbook.Generator/Tags/eventStartDate.cs:11-19 | the string and date-time forms of eventStartDate/eventEndDate share one wire key |
| Images.ToFilename | Passbook.Generator/Images/PassbookImage.cs:7-58 | the file name of each declared image value (see FilenamePattern, FromToFilename) |
| Images.FilenameOfCode | Passbook.Generator/Images/PassbookImage.cs:7-58 | ToFilename on any integer held by the enum: the declared values' names, and the not-implemented error from the default branch for every other code |
| Images.FilenamePattern | Passbook.Generator/Images/PassbookImage.cs:7-58 | every file name is the role's stem, then `""`, `@2x` or `@3x` for the scale, then `.png` |
| Images.FromToFilename | Passbook.Generator/Images/PassbookImage.cs:7-58 | the image can be recovered from its file name |
| Images.ToFilenameInjective | Passbook.Generator/Images/PassbookImage.cs:7-58 | two images share a file name exactly when they are the same image |
| Images.FilenameEndsInPng | Passbook.Generator/Images/PassbookImage.cs:7-58 | every file name ends in `.png` |
| Images.VenueMapSingleScale | Passbook.Generator/Images/PassbookImage.cs:187 | the venue map has one scale, `venueMap.png` |
| Images.FilenameOfCodeTotal | Passbook.Generator/Images/PassbookImage.cs:55-56 | an enum code names a file exactly when it is one of the 22 declared values; any other code gets the out-of-range error |
| Images.DeclaredOrdinal | Passbook.Generator/Images/PassbookImage.cs:61-188 | each declared value's code maps back to it and to its file name |
| Generator.PassGeneratorRequest.constructor | Passbook.Generator/PassGeneratorRequest.cs:16-33 | a new request has empty lists, an empty user-info dictionary and no localizations |
| Generator.PassGeneratorRequest.EnsureFieldKeyIsUnique | Passbook.Generator/PassGeneratorRequest.cs:403-413 | reports the duplicate-key error exactly when some section already uses the key |
| Generator.PassGeneratorRequest.AddField | Passbook.Generator/PassGeneratorRequest.cs:373-401 | a used key is rejected and leaves the request unchanged; a fresh one is appended to its section; key distinctness is preserved |
| Generator.PassGeneratorRequest.AppendField | Passbook.Generator/PassGeneratorRequest.cs:232-252 | the field is appended to one section's list with no key check, as the `List.Add` step of each Add*Field and direct use of the public lists do; nothing else changes |
| Generator.PassGeneratorRequest.AddBarcode | Passbook.Generator/PassGeneratorRequest.cs:415-423 | appends one barcode and changes nothing else |
| Generator.PassGeneratorRequest.SetBarcode | Passbook.Generator/PassGeneratorRequest.cs:425-428 | replaces the single barcode and changes nothing else |
| Generator.PassGeneratorRequest.AddLocation | Passbook.Generator/PassGeneratorRequest.cs:430-438 | appends one location and changes nothing else |
| Generator.PassGeneratorRequest.AddBeacon | Passbook.Generator/PassGeneratorRequest.cs:440-453 | appends one beacon and changes nothing else |
| Generator.PassGeneratorRequest.AddLocalization | Passbook.Generator/PassGeneratorRequest.cs:455-466 | updates the localization table as `Localizations.AddLocalization` does and leaves the pass unchanged |
| Generator.PassGeneratorRequest.WriteStandardKeys | Passbook.Generator/PassGeneratorRequest.cs:626-727 | writes the standard keys in source order; `logoText`, `associatedStoreIdentifiers` and `appLaunchURL` only when set or non-empty |
| Generator.WriteIdentityKeys | Passbook.Generator/PassGeneratorRequest.cs:628-644 | writes passTypeIdentifier, formatVersion (always 1), serialNumber, description, organizationName and teamIdentifier in order, null strings as JSON null |
| Generator.WriteDisplayKeys | Passbook.Generator/PassGeneratorRequest.cs:646-659 | writes sharingProhibited, auxiliaryStoreIdentifiers, the two display flags and footerBackgroundColor in order |
| Generator.WriteEventGuideKeys | Passbook.Generator/PassGeneratorRequest.cs:661-674 | writes the sell, transfer, bag-policy, order-food and merchandise URLs in order |
| Generator.WriteInformationKeys | Passbook.Generator/PassGeneratorRequest.cs:676-686 | writes the transit, parking, directions and accessibility URLs in order |
| Generator.WriteVenueKeys | Passbook.Generator/PassGeneratorRequest.cs:688-701 | writes purchaseParkingURL, addOnURL and the three venue contact keys in order |
| Generator.WriteStoreIdentifiers | Passbook.Generator/PassGeneratorRequest.cs:709-720 | writes the store identifiers as a number array, only when non-empty |
| Generator.WriteOptionalString | Passbook.Generator/PassGeneratorRequest.cs:703-707 | writes the key only when the string is neither null nor empty |
| Generator.WriteOptionalBool | Passbook.Generator/PassGeneratorRequest.cs:759-763 | writes the key only when the nullable boolean has a value |
| Generator.WriteOptionalDate | Passbook.Generator/PassGeneratorRequest.cs:774-778 | writes the rendered date only when it has a value |
| Generator.WriteObjectArray | Passbook.Generator/PassGeneratorRequest.cs:605-619 | writes the named array of the items in order, only when non-empty |
| Generator.PassGeneratorRequest.WriteUserInfo | Passbook.Generator/PassGeneratorRequest.cs:729-737 | writes `userInfo` as raw JSON when present |
| Generator.PassGeneratorRequest.WriteHead | Passbook.Generator/PassGeneratorRequest.cs:479-484 | writes semantics, the standard keys and userInfo, in that order |
| Generator.WriteRelevantDateEntries | Passbook.Generator/PassGeneratorRequest.cs:544-547 | writes the entries up to the first rejected one and returns its error |
| Generator.WriteRelevantDates | Passbook.Generator/PassGeneratorRequest.cs:539-550 | writes the `relevantDates` array when non-empty; a rejected entry leaves the array open and reports the error |
| Generator.PassGeneratorRequest.WriteRelevanceKeys | Passbook.Generator/PassGeneratorRequest.cs:531-583 | writes relevantDate, relevantDates, maxDistance (as a string), locations and beacons as `RelevanceKeys` specifies, stopping at a rejected date |
| Generator.WriteColorKey | Passbook.Generator/PassGeneratorRequest.cs:741-745 | writes the converted colour when set; a failed conversion leaves the property name written and reports the error |
| Generator.PassGeneratorRequest.WriteAppearanceKeys | Passbook.Generator/PassGeneratorRequest.cs:739-770 | writes the three colours, suppressStripShine and groupingIdentifier as `AppearanceKeys` specifies, stopping at the first colour that fails |
| Generator.PassGeneratorRequest.WriteExpirationKeys | Passbook.Generator/PassGeneratorRequest.cs:772-785 | writes expirationDate and voided, each only when it has a value |
| Generator.PassGeneratorRequest.WriteNfcKeys | Passbook.Generator/PassGeneratorRequest.cs:830-847 | writes `nfc` only when the message is non-empty, with `encryptionPublicKey` only when that is non-empty |
| Generator.WriteSection | Passbook.Generator/PassGeneratorRequest.cs:817-828 | writes one named section as the array of its fields, even when empty |
| Generator.WriteSections | Passbook.Generator/PassGeneratorRequest.cs:503-512 | writes the five sections in header, primary, secondary, auxiliary, back order |
| Generator.PassGeneratorRequest.WriteStyleDictionary | Passbook.Generator/PassGeneratorRequest.cs:500-521 | writes the style key around the sections, plus transitType for boarding passes |
| Generator.WritePreferredStyleSchemes | Passbook.Generator/PassGeneratorRequest.cs:787-802 | writes the scheme keys in order, only when the list is non-empty |
| Generator.PassGeneratorRequest.WriteBarcode | Passbook.Generator/PassGeneratorRequest.cs:596-603 | writes `barcode` only when one is set |
| Generator.PassGeneratorRequest.WriteUrls | Passbook.Generator/PassGeneratorRequest.cs:585-594 | writes authenticationToken and webServiceURL together, only when the token is non-empty |
| Generator.PassGeneratorRequest.WriteBody | Passbook.Generator/PassGeneratorRequest.cs:489-521 | writes expiration keys, barcodes, nfc and the style dictionary, in that order |
| Generator.PassGeneratorRequest.WriteTrailer | Passbook.Generator/PassGeneratorRequest.cs:523-526 | writes preferredStyleSchemes, barcode and the URLs, in that order |
| Generator.PassGeneratorRequest.WriteCheckedStages | Passbook.Generator/PassGeneratorRequest.cs:477-488 | the stages up to the appearance keys write their specified members, and stop at the first exception |
| Generator.PassGeneratorRequest.Write | Passbook.Generator/PassGeneratorRequest.cs:473-529 | the writer receives exactly the document's tokens (a closed object, or the partial output up to the exception), and the reported error is the document's |
| PassDocuments.Document | Passbook.Generator/PassGeneratorRequest.cs:473-529 | the stages of Write chained in order: head, relevance keys, appearance keys, then body and trailer; a stage that throws ends the document with its partial tokens (see the lemmas below) |
| PassDocuments.DocumentMembers | Passbook.Generator/PassGeneratorRequest.cs:473-529 | a complete document's members are head, relevance, appearance, body and trailer, in that order |
| PassDocuments.DocumentReadsBack | Passbook.Generator/PassGeneratorRequest.cs:473-529 | a complete pass.json decodes to one object with exactly the document's members |
| PassDocuments.DocumentFails | Passbook.Generator/PassGeneratorRequest.cs:486-488 | the write fails exactly when a relevant date is too long or one of the three colours does not convert; a relevant-date error comes first |
| PassDocuments.ForegroundColorFailure | Passbook.Generator/PassGeneratorRequest.cs:741-745 | a bad foreground colour leaves an open object: everything before it, then the dangling `foregroundColor` name |
| PassDocuments.RelevantDatesFail | Passbook.Generator/PassGeneratorRequest.cs:539-550 | the relevantDates stage fails exactly when some entry is too long; otherwise it writes all entries |
| PassDocuments.RelevantDatesPartial | Passbook.Generator/PassGeneratorRequest.cs:544-547 | on failure, the entries before the first rejected one are already written inside an open array |
| PassDocuments.WrittenDatesAllValid | Passbook.Generator/PassGeneratorRequest.cs:544-547 | with no rejected entry, every entry is written and there is no error |
| PassDocuments.WrittenDatesFirstInvalid | Passbook.Generator/PassGeneratorRequest.cs:544-547 | the entries are written up to the first rejected one, which gives the error |
| PassDocuments.RelevanceMembers | Passbook.Generator/PassGeneratorRequest.cs:531-583 | with no rejected date, the relevance keys are relevantDate, relevantDates, maxDistance as a string, locations and beacons, each only when present |
| PassDocuments.AppearanceFails | Passbook.Generator/PassGeneratorRequest.cs:739-770 | the appearance stage fails exactly when one of the three colours does not convert; a foreground failure writes only its name |
| PassDocuments.ColorKeyFails | Passbook.Generator/PassGeneratorRequest.cs:741-751 | a colour key fails exactly when the colour is set and does not convert |
| PassDocuments.SemanticsFirst | Passbook.Generator/PassGeneratorRequest.cs:477-482 | the first member is `semantics` when there are tags, otherwise `passTypeIdentifier`; the head members open the document |
| PassDocuments.StyleObjectShape | Passbook.Generator/PassGeneratorRequest.cs:500-521 | the style dictionary holds the five sections in order, each the array of its fields, then transitType only for boarding passes |
| PassDocuments.TransitTypeIffBoardingPass | Passbook.Generator/PassGeneratorRequest.cs:514-518 | transitType is a key of the style dictionary exactly for boarding passes, holding the transit type's name |
| PassDocuments.StyleDictionaryPresent | Passbook.Generator/PassGeneratorRequest.cs:500-521 | a complete document always holds the style dictionary under the style key |
| PassDocuments.WebServiceKeysLast | Passbook.Generator/PassGeneratorRequest.cs:585-594 | with a token, authenticationToken and webServiceURL are the last two keys; without one, neither appears |
| PassDocuments.SchemesIffNonEmpty | Passbook.Generator/PassGeneratorRequest.cs:787-802 | preferredStyleSchemes appears exactly when the list is non-empty, and then holds the scheme keys in order |
| PassDocuments.BeforeTrailerAvoids | Passbook.Generator/PassGeneratorRequest.cs:479-521 | no stage before the trailer writes preferredStyleSchemes, authenticationToken or webServiceURL |
| Emissions.ThenAssociative | Passbook.Generator/PassGeneratorRequest.cs:477-528 | chaining write stages is associative |
| Emissions.ThenStops | Passbook.Generator/PassGeneratorRequest.cs:477-528 | once a stage has thrown, later stages write nothing |
| Emissions.ThenWrote | Passbook.Generator/PassGeneratorRequest.cs:477-528 | two stages written one after the other produce the output of the chained stages |
| Emissions.WrittenComplete | Passbook.Generator/PassGeneratorRequest.cs:477-528 | a completed document is written as one object that decodes to its members |
| Emissions.WrittenFailed | Passbook.Generator/PassGeneratorRequest.cs:477-528 | a failed document is the opening brace, the members written, then the partial stage output |

## Left out

- Packaging, certificates, signing and manifest hashing are not part of this model. Only pass.json emission is modelled.
- Image bytes and the image dictionary of the request are left out. Only `PassbookImage` file names are modelled.
- `userInfo` is serialized by `JsonSerializer` and written raw. It is modelled as opaque text.
- `Trace.TraceInformation` logging is not modelled; it writes no pass.json output.
- Fields, barcodes, locations and beacons write themselves through their own `Write` methods, which are not part of this model. Their output is an opaque `Json` value.
  - `AddLocation`'s latitude and longitude doubles and its relevant text are inside that opaque value.
  - `AddBeacon`'s UUID and major/minor numbers are inside it too.
  - So are `Barcode`'s constructor parameters.
- Generator.PassGeneratorRequest.AddField: the five `Add*Field` methods are modelled as one method that takes the section as a parameter.
- Generator.PassGeneratorRequest.AppendField: the public field lists can be appended to directly, bypassing the duplicate-key check. This method models that, and promises no distinctness.
- `PopulateFields` is a virtual no-op in the base class. Overrides are not modelled.
- The semantic-tag container type and tags outside the scalar, date and `wifiAccess` kinds are not part of this model. `semantics` is modelled as present exactly when there are tags, with members in insertion order.
- The names of `PassStyle`, `TransitType` and `PreferredStyleScheme` values come from the pass format. These enums are not part of this model, and neither are their defaults. The constructor starts as a boarding pass with the air transit type.
- Null collections and null method arguments (a null list, field or language code) are not modelled. The C# code would throw a null-reference exception on them.
- Localizations: `StringComparer.OrdinalIgnoreCase` is modelled as ASCII upper-case folding. Non-ASCII case folding is not modelled.
- Colors.LongHashColor: .NET `int.Parse` with `HexNumber` is modelled on two-character channels. 32-bit overflow and culture-specific white space are not modelled.
- Integer widths are not modelled: store identifiers, `maxDistance`, `formatVersion` and beacon numbers are unbounded integers.
- `maxDistance` is rendered with `Decimal`/`IntText`. The culture of `ToString()` is not modelled.
- DateTimes.Render: `ToString("yyyy-MM-ddTHH:mm:ssK")` formats in the current culture. The culture's time separator and calendar are not modelled; a Gregorian calendar and `:` are assumed.
- RelevantDates.RejectsExactly: `TimeSpan.TotalHours` is a double. The model compares whole ticks against 24 hours of ticks; double rounding near the bound is not modelled.
- The `Utf8JsonWriter` validation of token sequences, escaping and indentation is not modelled. The writer is a log of tokens.
