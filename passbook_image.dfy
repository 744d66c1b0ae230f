/**
  The image roles a pass package can carry, and the file name each one is
  stored under in the package.
 */
module Images {
  import opened Wrappers
  import opened Errors

  /** PassbookImage, in declaration order. */
  datatype PassbookImage =
    | Background
    | Background2X
    | Background3X
    | Icon
    | Icon2X
    | Icon3X
    | Logo
    | Logo2X
    | Logo3X
    | Strip
    | Strip2X
    | Strip3X
    | Thumbnail
    | Thumbnail2X
    | Thumbnail3X
    | Footer
    | Footer2X
    | Footer3X
    | Artwork
    | Artwork2X
    | Artwork3X
    | VenueMap

  /** PassbookImageExtensions.ToFilename: one literal per declared value. */
  function ToFilename(image: PassbookImage): string {
    match image
    case Icon => "icon.png"
    case Icon2X => "icon@2x.png"
    case Icon3X => "icon@3x.png"
    case Logo => "logo.png"
    case Logo2X => "logo@2x.png"
    case Logo3X => "logo@3x.png"
    case Background => "background.png"
    case Background2X => "background@2x.png"
    case Background3X => "background@3x.png"
    case Strip => "strip.png"
    case Strip2X => "strip@2x.png"
    case Strip3X => "strip@3x.png"
    case Thumbnail => "thumbnail.png"
    case Thumbnail2X => "thumbnail@2x.png"
    case Thumbnail3X => "thumbnail@3x.png"
    case Footer => "footer.png"
    case Footer2X => "footer@2x.png"
    case Footer3X => "footer@3x.png"
    case Artwork => "artwork.png"
    case Artwork2X => "artwork@2x.png"
    case Artwork3X => "artwork@3x.png"
    case VenueMap => "venueMap.png"
  }

  /** The enum's underlying value: its position in the declaration. */
  function Ordinal(image: PassbookImage): (code: int)
    ensures 0 <= code < 22
  {
    match image
    case Background => 0
    case Background2X => 1
    case Background3X => 2
    case Icon => 3
    case Icon2X => 4
    case Icon3X => 5
    case Logo => 6
    case Logo2X => 7
    case Logo3X => 8
    case Strip => 9
    case Strip2X => 10
    case Strip3X => 11
    case Thumbnail => 12
    case Thumbnail2X => 13
    case Thumbnail3X => 14
    case Footer => 15
    case Footer2X => 16
    case Footer3X => 17
    case Artwork => 18
    case Artwork2X => 19
    case Artwork3X => 20
    case VenueMap => 21
  }

  /** The declared value with the given underlying value, if there is one. */
  function Declared(code: int): Option<PassbookImage> {
    if code == 0 then Some(Background)
    else if code == 1 then Some(Background2X)
    else if code == 2 then Some(Background3X)
    else if code == 3 then Some(Icon)
    else if code == 4 then Some(Icon2X)
    else if code == 5 then Some(Icon3X)
    else if code == 6 then Some(Logo)
    else if code == 7 then Some(Logo2X)
    else if code == 8 then Some(Logo3X)
    else if code == 9 then Some(Strip)
    else if code == 10 then Some(Strip2X)
    else if code == 11 then Some(Strip3X)
    else if code == 12 then Some(Thumbnail)
    else if code == 13 then Some(Thumbnail2X)
    else if code == 14 then Some(Thumbnail3X)
    else if code == 15 then Some(Footer)
    else if code == 16 then Some(Footer2X)
    else if code == 17 then Some(Footer3X)
    else if code == 18 then Some(Artwork)
    else if code == 19 then Some(Artwork2X)
    else if code == 20 then Some(Artwork3X)
    else if code == 21 then Some(VenueMap)
    else None
  }

  /**
    ToFilename on an arbitrary value of the enum's underlying type: a C#
    enum variable can hold any int, and the values outside the declaration
    reach the default branch and its NotImplementedException.
   */
  function FilenameOfCode(code: int): (r: Result<string, Error>)
  {
    match Declared(code)
    case Some(image) => Ok(ToFilename(image))
    case None => Err(UnknownPassbookImage(code))
  }

  /** The reverse lookup, from a package file name back to its role. */
  function FromFilename(name: string): Option<PassbookImage> {
    if name == "icon.png" then Some(Icon)
    else if name == "icon@2x.png" then Some(Icon2X)
    else if name == "icon@3x.png" then Some(Icon3X)
    else if name == "logo.png" then Some(Logo)
    else if name == "logo@2x.png" then Some(Logo2X)
    else if name == "logo@3x.png" then Some(Logo3X)
    else if name == "background.png" then Some(Background)
    else if name == "background@2x.png" then Some(Background2X)
    else if name == "background@3x.png" then Some(Background3X)
    else if name == "strip.png" then Some(Strip)
    else if name == "strip@2x.png" then Some(Strip2X)
    else if name == "strip@3x.png" then Some(Strip3X)
    else if name == "thumbnail.png" then Some(Thumbnail)
    else if name == "thumbnail@2x.png" then Some(Thumbnail2X)
    else if name == "thumbnail@3x.png" then Some(Thumbnail3X)
    else if name == "footer.png" then Some(Footer)
    else if name == "footer@2x.png" then Some(Footer2X)
    else if name == "footer@3x.png" then Some(Footer3X)
    else if name == "artwork.png" then Some(Artwork)
    else if name == "artwork@2x.png" then Some(Artwork2X)
    else if name == "artwork@3x.png" then Some(Artwork3X)
    else if name == "venueMap.png" then Some(VenueMap)
    else None
  }
  /** The kind of picture, independent of the screen scale. */
  datatype Role = BackgroundRole | IconRole | LogoRole | StripRole | ThumbnailRole | FooterRole | ArtworkRole | VenueMapRole

  /** The file name stem shared by a role's scale variants. */
  function Stem(role: Role): string {
    match role
    case BackgroundRole => "background"
    case IconRole => "icon"
    case LogoRole => "logo"
    case StripRole => "strip"
    case ThumbnailRole => "thumbnail"
    case FooterRole => "footer"
    case ArtworkRole => "artwork"
    case VenueMapRole => "venueMap"
  }

  /** Each value's role and scale factor (1, 2 or 3). */
  function RoleAndScale(image: PassbookImage): (Role, nat) {
    match image
    case Background => (BackgroundRole, 1)
    case Background2X => (BackgroundRole, 2)
    case Background3X => (BackgroundRole, 3)
    case Icon => (IconRole, 1)
    case Icon2X => (IconRole, 2)
    case Icon3X => (IconRole, 3)
    case Logo => (LogoRole, 1)
    case Logo2X => (LogoRole, 2)
    case Logo3X => (LogoRole, 3)
    case Strip => (StripRole, 1)
    case Strip2X => (StripRole, 2)
    case Strip3X => (StripRole, 3)
    case Thumbnail => (ThumbnailRole, 1)
    case Thumbnail2X => (ThumbnailRole, 2)
    case Thumbnail3X => (ThumbnailRole, 3)
    case Footer => (FooterRole, 1)
    case Footer2X => (FooterRole, 2)
    case Footer3X => (FooterRole, 3)
    case Artwork => (ArtworkRole, 1)
    case Artwork2X => (ArtworkRole, 2)
    case Artwork3X => (ArtworkRole, 3)
    case VenueMap => (VenueMapRole, 1)
  }

  function ScaleSuffix(scale: nat): string {
    if scale == 2 then "@2x" else if scale == 3 then "@3x" else ""
  }

  // ---------------------------------------------------------------------
  // Properties

  /** Every name is the role's stem, the scale suffix (none at 1x), then ".png". */
  lemma FilenamePattern(image: PassbookImage)
    ensures ToFilename(image) == Stem(RoleAndScale(image).0) + ScaleSuffix(RoleAndScale(image).1) + ".png"
  {
    match RoleAndScale(image).0 {
      case BackgroundRole => BackgroundNames(image);
      case IconRole => IconNames(image);
      case LogoRole => LogoNames(image);
      case StripRole => StripNames(image);
      case ThumbnailRole => ThumbnailNames(image);
      case FooterRole => FooterNames(image);
      case ArtworkRole => ArtworkNames(image);
      case VenueMapRole =>
        assert image == VenueMap;
        assert "venueMap" + "" + ".png" == "venueMap.png";
    }
  }

  lemma BackgroundNames(image: PassbookImage)
    requires RoleAndScale(image).0 == BackgroundRole
    ensures ToFilename(image) == Stem(BackgroundRole) + ScaleSuffix(RoleAndScale(image).1) + ".png"
  {
    match image
    case Background => assert "background" + "" + ".png" == "background.png";
    case Background2X => assert "background" + "@2x" + ".png" == "background@2x.png";
    case Background3X => assert "background" + "@3x" + ".png" == "background@3x.png";
    case _ =>
  }

  lemma IconNames(image: PassbookImage)
    requires RoleAndScale(image).0 == IconRole
    ensures ToFilename(image) == Stem(IconRole) + ScaleSuffix(RoleAndScale(image).1) + ".png"
  {
    match image
    case Icon => assert "icon" + "" + ".png" == "icon.png";
    case Icon2X => assert "icon" + "@2x" + ".png" == "icon@2x.png";
    case Icon3X => assert "icon" + "@3x" + ".png" == "icon@3x.png";
    case _ =>
  }

  lemma LogoNames(image: PassbookImage)
    requires RoleAndScale(image).0 == LogoRole
    ensures ToFilename(image) == Stem(LogoRole) + ScaleSuffix(RoleAndScale(image).1) + ".png"
  {
    match image
    case Logo => assert "logo" + "" + ".png" == "logo.png";
    case Logo2X => assert "logo" + "@2x" + ".png" == "logo@2x.png";
    case Logo3X => assert "logo" + "@3x" + ".png" == "logo@3x.png";
    case _ =>
  }

  lemma StripNames(image: PassbookImage)
    requires RoleAndScale(image).0 == StripRole
    ensures ToFilename(image) == Stem(StripRole) + ScaleSuffix(RoleAndScale(image).1) + ".png"
  {
    match image
    case Strip => assert "strip" + "" + ".png" == "strip.png";
    case Strip2X => assert "strip" + "@2x" + ".png" == "strip@2x.png";
    case Strip3X => assert "strip" + "@3x" + ".png" == "strip@3x.png";
    case _ =>
  }

  lemma ThumbnailNames(image: PassbookImage)
    requires RoleAndScale(image).0 == ThumbnailRole
    ensures ToFilename(image) == Stem(ThumbnailRole) + ScaleSuffix(RoleAndScale(image).1) + ".png"
  {
    match image
    case Thumbnail => assert "thumbnail" + "" + ".png" == "thumbnail.png";
    case Thumbnail2X => assert "thumbnail" + "@2x" + ".png" == "thumbnail@2x.png";
    case Thumbnail3X => assert "thumbnail" + "@3x" + ".png" == "thumbnail@3x.png";
    case _ =>
  }

  lemma FooterNames(image: PassbookImage)
    requires RoleAndScale(image).0 == FooterRole
    ensures ToFilename(image) == Stem(FooterRole) + ScaleSuffix(RoleAndScale(image).1) + ".png"
  {
    match image
    case Footer => assert "footer" + "" + ".png" == "footer.png";
    case Footer2X => assert "footer" + "@2x" + ".png" == "footer@2x.png";
    case Footer3X => assert "footer" + "@3x" + ".png" == "footer@3x.png";
    case _ =>
  }

  lemma ArtworkNames(image: PassbookImage)
    requires RoleAndScale(image).0 == ArtworkRole
    ensures ToFilename(image) == Stem(ArtworkRole) + ScaleSuffix(RoleAndScale(image).1) + ".png"
  {
    match image
    case Artwork => assert "artwork" + "" + ".png" == "artwork.png";
    case Artwork2X => assert "artwork" + "@2x" + ".png" == "artwork@2x.png";
    case Artwork3X => assert "artwork" + "@3x" + ".png" == "artwork@3x.png";
    case _ =>
  }

  /** Every name ends in ".png" and has a non-empty stem before it. */
  lemma FilenameEndsInPng(image: PassbookImage)
    ensures |ToFilename(image)| > 4 && ToFilename(image)[|ToFilename(image)| - 4..] == ".png"
  {
    FilenamePattern(image);
    var stem := Stem(RoleAndScale(image).0) + ScaleSuffix(RoleAndScale(image).1);
    assert |Stem(RoleAndScale(image).0)| > 0;
    assert (stem + ".png")[|stem + ".png"| - 4..] == ".png";
  }

  /** The reverse lookup undoes ToFilename. */
  lemma FromToFilename(image: PassbookImage)
    ensures FromFilename(ToFilename(image)) == Some(image)
  {
    match RoleAndScale(image).1 {
      case 1 => FromSingleScaleFilename(image);
      case 2 => FromDoubleScaleFilename(image);
      case _ => FromTripleScaleFilename(image);
    }
  }

  lemma FromSingleScaleFilename(image: PassbookImage)
    requires RoleAndScale(image).1 == 1
    ensures FromFilename(ToFilename(image)) == Some(image)
  {
    match image
    case Background =>
    case Icon =>
    case Logo =>
    case Strip =>
    case Thumbnail =>
    case Footer =>
    case Artwork =>
    case VenueMap =>
    case _ =>
  }

  lemma FromDoubleScaleFilename(image: PassbookImage)
    requires RoleAndScale(image).1 == 2
    ensures FromFilename(ToFilename(image)) == Some(image)
  {
    match image
    case Background2X =>
    case Icon2X =>
    case Logo2X =>
    case Strip2X =>
    case Thumbnail2X =>
    case Footer2X =>
    case Artwork2X =>
    case _ =>
  }

  lemma FromTripleScaleFilename(image: PassbookImage)
    requires RoleAndScale(image).1 != 1 && RoleAndScale(image).1 != 2
    ensures FromFilename(ToFilename(image)) == Some(image)
  {
    match image
    case Background3X =>
    case Icon3X =>
    case Logo3X =>
    case Strip3X =>
    case Thumbnail3X =>
    case Footer3X =>
    case Artwork3X =>
    case _ =>
  }

  /** Distinct images are stored under distinct names. */
  lemma ToFilenameInjective(a: PassbookImage, b: PassbookImage)
    ensures ToFilename(a) == ToFilename(b) <==> a == b
  {
    if ToFilename(a) == ToFilename(b) {
      FromToFilename(a);
      FromToFilename(b);
    }
  }

  /** The venue map has a single scale: no "venueMap@2x.png" or "venueMap@3x.png" exists. */
  lemma VenueMapSingleScale(image: PassbookImage)
    ensures ToFilename(VenueMap) == "venueMap.png"
    ensures RoleAndScale(image).0 == VenueMapRole <==> image == VenueMap
  {
  }

  /** Exactly the 22 declared codes 0..21 have a name; every other code raises. */
  lemma FilenameOfCodeTotal(code: int)
    ensures FilenameOfCode(code).Ok? <==> 0 <= code < 22
    ensures FilenameOfCode(code).Err? ==> FilenameOfCode(code).error == UnknownPassbookImage(code)
  {
  }

  /** Declared and Ordinal are inverse: code i names the i-th declared value. */
  lemma DeclaredOrdinal(image: PassbookImage)
    ensures Declared(Ordinal(image)) == Some(image)
    ensures FilenameOfCode(Ordinal(image)) == Ok(ToFilename(image))
  {
  }
}
