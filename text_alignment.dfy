// The mapping from a paragraph's NSTextAlignment to the alignment mode of a
// CATextLayer, used when a label's alignment is copied onto its layer.
module TextAlignment {

  /** The five cases of NSTextAlignment. */
  datatype NSTextAlignment = Left | Right | Center | Justified | Natural

  /** The five cases of CATextLayerAlignmentMode. */
  datatype LayerAlignmentMode = LeftMode | RightMode | CenterMode | JustifiedMode | NaturalMode

  /** `layerAlignment`: a switch over all five cases, with no default. */
  function LayerAlignment(a: NSTextAlignment): (m: LayerAlignmentMode)
    ensures TextAlignmentOf(m) == a
  {
    match a
    case Center => CenterMode
    case Justified => JustifiedMode
    case Left => LeftMode
    case Natural => NaturalMode
    case Right => RightMode
  }

  /** The reverse reading of the same table, from a layer mode back to the
      text alignment of the same name. */
  function TextAlignmentOf(m: LayerAlignmentMode): NSTextAlignment {
    match m
    case LeftMode => Left
    case RightMode => Right
    case CenterMode => Center
    case JustifiedMode => Justified
    case NaturalMode => Natural
  }

  /** Every layer mode is reached, by the text alignment of the same name. */
  lemma LayerAlignmentIsOnto(m: LayerAlignmentMode)
    ensures LayerAlignment(TextAlignmentOf(m)) == m
  {
  }

  /** Distinct text alignments give distinct layer modes. */
  lemma LayerAlignmentIsInjective(a: NSTextAlignment, b: NSTextAlignment)
    requires LayerAlignment(a) == LayerAlignment(b)
    ensures a == b
  {
    assert TextAlignmentOf(LayerAlignment(a)) == a;
    assert TextAlignmentOf(LayerAlignment(b)) == b;
  }

  /** Each case lands on the mode of the same name. */
  lemma LayerAlignmentKeepsTheName()
    ensures LayerAlignment(Center) == CenterMode && LayerAlignment(Justified) == JustifiedMode
    ensures LayerAlignment(Left) == LeftMode && LayerAlignment(Natural) == NaturalMode
    ensures LayerAlignment(Right) == RightMode
  {
  }
}
