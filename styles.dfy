/**
  The pass style, transit type and preferred style scheme enumerations, and
  the rule that turns an enum name into a JSON key or value: lower-case the
  first character, keep the rest.
 */
module Styles {
  import opened Text

  datatype PassStyle = BoardingPass | Coupon | EventTicket | Generic | StoreCard

  datatype TransitType = PKTransitTypeAir | PKTransitTypeBoat | PKTransitTypeBus | PKTransitTypeGeneric | PKTransitTypeTrain

  datatype PreferredStyleScheme = PosterEventTicket | EventTicket

  /** PassStyle.ToString(): the member's name. */
  function StyleName(style: PassStyle): (name: string)
    ensures |name| > 0
  {
    match style
    case BoardingPass => "BoardingPass"
    case Coupon => "Coupon"
    case EventTicket => "EventTicket"
    case Generic => "Generic"
    case StoreCard => "StoreCard"
  }

  /** TransitType.ToString(), written verbatim as the transitType value. */
  function TransitName(transit: TransitType): string {
    match transit
    case PKTransitTypeAir => "PKTransitTypeAir"
    case PKTransitTypeBoat => "PKTransitTypeBoat"
    case PKTransitTypeBus => "PKTransitTypeBus"
    case PKTransitTypeGeneric => "PKTransitTypeGeneric"
    case PKTransitTypeTrain => "PKTransitTypeTrain"
  }

  /** PreferredStyleScheme.ToString(). */
  function SchemeName(scheme: PreferredStyleScheme): (name: string)
    ensures |name| > 0
  {
    match scheme
    case PosterEventTicket => "PosterEventTicket"
    case EventTicket => "EventTicket"
  }

  /** The style-specific wrapper key OpenStyleSpecificKey writes. */
  function WrapperKey(style: PassStyle): string {
    LowerFirst(StyleName(style))
  }

  /** One entry of the preferredStyleSchemes array. */
  function SchemeKey(scheme: PreferredStyleScheme): string {
    LowerFirst(SchemeName(scheme))
  }

  // ---------------------------------------------------------------------
  // Properties

  /** The wrapper key is the style name with its first character lower-cased and nothing else changed. */
  lemma WrapperKeyFirstCharOnly(style: PassStyle)
    ensures |WrapperKey(style)| == |StyleName(style)|
    ensures WrapperKey(style)[0] == ToLowerAscii(StyleName(style)[0])
    ensures WrapperKey(style)[1..] == StyleName(style)[1..]
    ensures 'a' <= WrapperKey(style)[0] <= 'z'
  {
    assert WrapperKey(style)[1..] == StyleName(style)[1..];
  }

  /** Distinct styles open distinct wrapper keys. */
  lemma WrapperKeyInjective(a: PassStyle, b: PassStyle)
    ensures WrapperKey(a) == WrapperKey(b) <==> a == b
  {
    if a != b {
      var ka, kb := WrapperKey(a), WrapperKey(b);
      assert ka[1..] == StyleName(a)[1..] && kb[1..] == StyleName(b)[1..];
      assert ka[1..] != kb[1..];
    }
  }

  /** The wrapper keys of the five styles, as the pass format names its top-level style dictionaries. */
  lemma WrapperKeys()
    ensures WrapperKey(BoardingPass) == "boardingPass"
    ensures WrapperKey(Coupon) == "coupon"
    ensures WrapperKey(PassStyle.EventTicket) == "eventTicket"
    ensures WrapperKey(Generic) == "generic"
    ensures WrapperKey(StoreCard) == "storeCard"
  {
  }

  /** A scheme entry is the scheme name with only its first character lower-cased; distinct schemes differ. */
  lemma SchemeKeyFirstCharOnly(scheme: PreferredStyleScheme, other: PreferredStyleScheme)
    ensures |SchemeKey(scheme)| == |SchemeName(scheme)|
    ensures SchemeKey(scheme)[1..] == SchemeName(scheme)[1..]
    ensures SchemeKey(scheme) == SchemeKey(other) <==> scheme == other
  {
    assert SchemeKey(scheme)[1..] == SchemeName(scheme)[1..];
    assert SchemeKey(other)[1..] == SchemeName(other)[1..];
  }

  /** The two scheme entries: "eventTicket" and "posterEventTicket". */
  lemma SchemeKeys()
    ensures SchemeKey(PreferredStyleScheme.EventTicket) == "eventTicket"
    ensures SchemeKey(PosterEventTicket) == "posterEventTicket"
  {
  }
}
