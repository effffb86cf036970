/** The styling of a slide's title text: its font, horizontal alignment,
    vertical position and drop shadow. It is a plain record with
    documented defaults. Each of its four properties can be replaced
    independently of the others. */
module TitleText {

  /** The enumerations' own definitions are not part of this model; these
      members are the alignments and positions of the title text block. */
  datatype HorizontalTextAlignment = Left | Center | Right

  datatype TitlePosition = Top | Middle | Bottom

  /** The font fields the title spec sets: colour and size. */
  datatype FontSpec = FontSpec(colour: string, size: int)

  /** The drop-shadow field the title spec sets: whether it is shown. */
  datatype DropShadowSpec = DropShadowSpec(show: bool)

  datatype TitleTextSpec = TitleTextSpec(
    font: FontSpec,
    horizontalAlignment: HorizontalTextAlignment,
    position: TitlePosition,
    dropShadow: DropShadowSpec)

  const DEFAULT_COLOUR: string := "#fbfbff"
  const DEFAULT_SIZE: int := 64

  /** The value the parameterless constructor builds. */
  function Default(): (spec: TitleTextSpec)
    ensures spec.font.colour == DEFAULT_COLOUR && spec.font.size == DEFAULT_SIZE
    ensures spec.horizontalAlignment == Right
    ensures spec.position == Bottom
    ensures !spec.dropShadow.show
  {
    TitleTextSpec(FontSpec(DEFAULT_COLOUR, DEFAULT_SIZE), Right, Bottom, DropShadowSpec(false))
  }

  /** Setting the Font property: the new font is read back and the other
      three properties keep their values. */
  function WithFont(spec: TitleTextSpec, font: FontSpec): (r: TitleTextSpec)
    ensures r.font == font
    ensures r.horizontalAlignment == spec.horizontalAlignment
    ensures r.position == spec.position && r.dropShadow == spec.dropShadow
  {
    spec.(font := font)
  }

  /** Setting the HorizontalAlignment property. */
  function WithHorizontalAlignment(spec: TitleTextSpec, alignment: HorizontalTextAlignment): (r: TitleTextSpec)
    ensures r.horizontalAlignment == alignment
    ensures r.font == spec.font
    ensures r.position == spec.position && r.dropShadow == spec.dropShadow
  {
    spec.(horizontalAlignment := alignment)
  }

  /** Setting the Position property. */
  function WithPosition(spec: TitleTextSpec, position: TitlePosition): (r: TitleTextSpec)
    ensures r.position == position
    ensures r.font == spec.font
    ensures r.horizontalAlignment == spec.horizontalAlignment && r.dropShadow == spec.dropShadow
  {
    spec.(position := position)
  }

  /** Setting the DropShadow property. */
  function WithDropShadow(spec: TitleTextSpec, dropShadow: DropShadowSpec): (r: TitleTextSpec)
    ensures r.dropShadow == dropShadow
    ensures r.font == spec.font
    ensures r.horizontalAlignment == spec.horizontalAlignment && r.position == spec.position
  {
    spec.(dropShadow := dropShadow)
  }

  /** Setting a property to the value it already has changes nothing. */
  lemma SettersIdempotent(spec: TitleTextSpec)
    ensures WithFont(spec, spec.font) == spec
    ensures WithHorizontalAlignment(spec, spec.horizontalAlignment) == spec
    ensures WithPosition(spec, spec.position) == spec
    ensures WithDropShadow(spec, spec.dropShadow) == spec
  {
  }

  /** Setting two different properties gives the same spec in either order. */
  lemma SettersCommute(spec: TitleTextSpec, font: FontSpec, alignment: HorizontalTextAlignment,
                       position: TitlePosition, dropShadow: DropShadowSpec)
    ensures WithHorizontalAlignment(WithFont(spec, font), alignment) == WithFont(WithHorizontalAlignment(spec, alignment), font)
    ensures WithPosition(WithFont(spec, font), position) == WithFont(WithPosition(spec, position), font)
    ensures WithDropShadow(WithFont(spec, font), dropShadow) == WithFont(WithDropShadow(spec, dropShadow), font)
    ensures WithPosition(WithHorizontalAlignment(spec, alignment), position) == WithHorizontalAlignment(WithPosition(spec, position), alignment)
    ensures WithDropShadow(WithHorizontalAlignment(spec, alignment), dropShadow) == WithHorizontalAlignment(WithDropShadow(spec, dropShadow), alignment)
    ensures WithDropShadow(WithPosition(spec, position), dropShadow) == WithPosition(WithDropShadow(spec, dropShadow), position)
  {
  }

  /** Every title spec is the default with its four properties set: the
      four properties are the whole of the value. */
  lemma SettersReachEverySpec(spec: TitleTextSpec)
    ensures WithDropShadow(WithPosition(WithHorizontalAlignment(WithFont(Default(), spec.font),
              spec.horizontalAlignment), spec.position), spec.dropShadow) == spec
  {
  }
}
