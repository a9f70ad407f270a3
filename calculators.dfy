// The size calculators as the layout sees them: objects holding the
// per-direction style knobs the layout's setters broadcast, whose own
// sizing and attribute configuration are opaque to the core.
module Calculators {
  import opened Kit
  import opened EdgeInsets

  /** The style fields of a MessageSizeCalculator (incoming and outgoing
      variants), plus the message label's font size of the text calculators. */
  datatype Style = Style(
    incomingAvatarSize: Size,
    outgoingAvatarSize: Size,
    incomingAvatarPosition: AvatarPosition,
    outgoingAvatarPosition: AvatarPosition,
    incomingMessagePadding: NSEdgeInsets,
    outgoingMessagePadding: NSEdgeInsets,
    incomingCellTopLabelAlignment: LabelAlignment,
    outgoingCellTopLabelAlignment: LabelAlignment,
    incomingMessageTopLabelAlignment: LabelAlignment,
    outgoingMessageTopLabelAlignment: LabelAlignment,
    incomingMessageBottomLabelAlignment: LabelAlignment,
    outgoingMessageBottomLabelAlignment: LabelAlignment,
    incomingAccessoryViewSize: Size,
    outgoingAccessoryViewSize: Size,
    incomingAccessoryViewPadding: HorizontalEdgeInsets,
    outgoingAccessoryViewPadding: HorizontalEdgeInsets,
    messageLabelFontSize: real)
  {
    /** Reads one field, named by its tag. */
    function Get(f: StyleField): StyleValue {
      match f
      case IncomingAvatarSizeField => SizeValue(incomingAvatarSize)
      case OutgoingAvatarSizeField => SizeValue(outgoingAvatarSize)
      case IncomingAvatarPositionField => PositionValue(incomingAvatarPosition)
      case OutgoingAvatarPositionField => PositionValue(outgoingAvatarPosition)
      case IncomingMessagePaddingField => PaddingValue(incomingMessagePadding)
      case OutgoingMessagePaddingField => PaddingValue(outgoingMessagePadding)
      case IncomingCellTopLabelAlignmentField => AlignmentValue(incomingCellTopLabelAlignment)
      case OutgoingCellTopLabelAlignmentField => AlignmentValue(outgoingCellTopLabelAlignment)
      case IncomingMessageTopLabelAlignmentField => AlignmentValue(incomingMessageTopLabelAlignment)
      case OutgoingMessageTopLabelAlignmentField => AlignmentValue(outgoingMessageTopLabelAlignment)
      case IncomingMessageBottomLabelAlignmentField => AlignmentValue(incomingMessageBottomLabelAlignment)
      case OutgoingMessageBottomLabelAlignmentField => AlignmentValue(outgoingMessageBottomLabelAlignment)
      case IncomingAccessoryViewSizeField => SizeValue(incomingAccessoryViewSize)
      case OutgoingAccessoryViewSizeField => SizeValue(outgoingAccessoryViewSize)
      case IncomingAccessoryViewPaddingField => AccessoryPaddingValue(incomingAccessoryViewPadding)
      case OutgoingAccessoryViewPaddingField => AccessoryPaddingValue(outgoingAccessoryViewPadding)
      case MessageLabelFontSizeField => FontSizeValue(messageLabelFontSize)
    }

    /** The assignment one `setMessage*` setter performs on one calculator:
        reading back the written field gives the new value, and every other
        field reads as before. */
    function With(setting: StyleSetting): (r: Style)
      ensures forall f :: r.Get(f) == if f == setting.Field() then setting.Value() else Get(f)
    {
      match setting
      case IncomingAvatarSize(v) => this.(incomingAvatarSize := v)
      case OutgoingAvatarSize(v) => this.(outgoingAvatarSize := v)
      case IncomingAvatarPosition(v) => this.(incomingAvatarPosition := v)
      case OutgoingAvatarPosition(v) => this.(outgoingAvatarPosition := v)
      case IncomingMessagePadding(v) => this.(incomingMessagePadding := v)
      case OutgoingMessagePadding(v) => this.(outgoingMessagePadding := v)
      case IncomingCellTopLabelAlignment(v) => this.(incomingCellTopLabelAlignment := v)
      case OutgoingCellTopLabelAlignment(v) => this.(outgoingCellTopLabelAlignment := v)
      case IncomingMessageTopLabelAlignment(v) => this.(incomingMessageTopLabelAlignment := v)
      case OutgoingMessageTopLabelAlignment(v) => this.(outgoingMessageTopLabelAlignment := v)
      case IncomingMessageBottomLabelAlignment(v) => this.(incomingMessageBottomLabelAlignment := v)
      case OutgoingMessageBottomLabelAlignment(v) => this.(outgoingMessageBottomLabelAlignment := v)
      case IncomingAccessoryViewSize(v) => this.(incomingAccessoryViewSize := v)
      case OutgoingAccessoryViewSize(v) => this.(outgoingAccessoryViewSize := v)
      case IncomingAccessoryViewPadding(v) => this.(incomingAccessoryViewPadding := v)
      case OutgoingAccessoryViewPadding(v) => this.(outgoingAccessoryViewPadding := v)
    }
  }

  /** Tags naming the fields of a Style. */
  datatype StyleField =
    | IncomingAvatarSizeField | OutgoingAvatarSizeField
    | IncomingAvatarPositionField | OutgoingAvatarPositionField
    | IncomingMessagePaddingField | OutgoingMessagePaddingField
    | IncomingCellTopLabelAlignmentField | OutgoingCellTopLabelAlignmentField
    | IncomingMessageTopLabelAlignmentField | OutgoingMessageTopLabelAlignmentField
    | IncomingMessageBottomLabelAlignmentField | OutgoingMessageBottomLabelAlignmentField
    | IncomingAccessoryViewSizeField | OutgoingAccessoryViewSizeField
    | IncomingAccessoryViewPaddingField | OutgoingAccessoryViewPaddingField
    | MessageLabelFontSizeField

  datatype StyleValue =
    | SizeValue(size: Size)
    | PositionValue(position: AvatarPosition)
    | PaddingValue(padding: NSEdgeInsets)
    | AlignmentValue(alignment: LabelAlignment)
    | AccessoryPaddingValue(accessoryPadding: HorizontalEdgeInsets)
    | FontSizeValue(fontSize: real)

  /** One call of a `setMessage*` setter of the flow layout: which field it
      writes, and the new value. */
  datatype StyleSetting =
    | IncomingAvatarSize(newSize: Size)
    | OutgoingAvatarSize(newSize: Size)
    | IncomingAvatarPosition(newPosition: AvatarPosition)
    | OutgoingAvatarPosition(newPosition: AvatarPosition)
    | IncomingMessagePadding(newPadding: NSEdgeInsets)
    | OutgoingMessagePadding(newPadding: NSEdgeInsets)
    | IncomingCellTopLabelAlignment(newAlignment: LabelAlignment)
    | OutgoingCellTopLabelAlignment(newAlignment: LabelAlignment)
    | IncomingMessageTopLabelAlignment(newAlignment: LabelAlignment)
    | OutgoingMessageTopLabelAlignment(newAlignment: LabelAlignment)
    | IncomingMessageBottomLabelAlignment(newAlignment: LabelAlignment)
    | OutgoingMessageBottomLabelAlignment(newAlignment: LabelAlignment)
    | IncomingAccessoryViewSize(newSize: Size)
    | OutgoingAccessoryViewSize(newSize: Size)
    | IncomingAccessoryViewPadding(newAccessoryPadding: HorizontalEdgeInsets)
    | OutgoingAccessoryViewPadding(newAccessoryPadding: HorizontalEdgeInsets)
  {
    function Field(): StyleField {
      match this
      case IncomingAvatarSize(_) => IncomingAvatarSizeField
      case OutgoingAvatarSize(_) => OutgoingAvatarSizeField
      case IncomingAvatarPosition(_) => IncomingAvatarPositionField
      case OutgoingAvatarPosition(_) => OutgoingAvatarPositionField
      case IncomingMessagePadding(_) => IncomingMessagePaddingField
      case OutgoingMessagePadding(_) => OutgoingMessagePaddingField
      case IncomingCellTopLabelAlignment(_) => IncomingCellTopLabelAlignmentField
      case OutgoingCellTopLabelAlignment(_) => OutgoingCellTopLabelAlignmentField
      case IncomingMessageTopLabelAlignment(_) => IncomingMessageTopLabelAlignmentField
      case OutgoingMessageTopLabelAlignment(_) => OutgoingMessageTopLabelAlignmentField
      case IncomingMessageBottomLabelAlignment(_) => IncomingMessageBottomLabelAlignmentField
      case OutgoingMessageBottomLabelAlignment(_) => OutgoingMessageBottomLabelAlignmentField
      case IncomingAccessoryViewSize(_) => IncomingAccessoryViewSizeField
      case OutgoingAccessoryViewSize(_) => OutgoingAccessoryViewSizeField
      case IncomingAccessoryViewPadding(_) => IncomingAccessoryViewPaddingField
      case OutgoingAccessoryViewPadding(_) => OutgoingAccessoryViewPaddingField
    }

    function Value(): StyleValue {
      match this
      case IncomingAvatarSize(v) => SizeValue(v)
      case OutgoingAvatarSize(v) => SizeValue(v)
      case IncomingAvatarPosition(v) => PositionValue(v)
      case OutgoingAvatarPosition(v) => PositionValue(v)
      case IncomingMessagePadding(v) => PaddingValue(v)
      case OutgoingMessagePadding(v) => PaddingValue(v)
      case IncomingCellTopLabelAlignment(v) => AlignmentValue(v)
      case OutgoingCellTopLabelAlignment(v) => AlignmentValue(v)
      case IncomingMessageTopLabelAlignment(v) => AlignmentValue(v)
      case OutgoingMessageTopLabelAlignment(v) => AlignmentValue(v)
      case IncomingMessageBottomLabelAlignment(v) => AlignmentValue(v)
      case OutgoingMessageBottomLabelAlignment(v) => AlignmentValue(v)
      case IncomingAccessoryViewSize(v) => SizeValue(v)
      case OutgoingAccessoryViewSize(v) => SizeValue(v)
      case IncomingAccessoryViewPadding(v) => AccessoryPaddingValue(v)
      case OutgoingAccessoryViewPadding(v) => AccessoryPaddingValue(v)
    }
  }

  /** Which concrete calculator class an object is; a custom calculator comes
      from the application. */
  datatype CalculatorFamily =
    | TextMessageSizing
    | MediaMessageSizing
    | LocationMessageSizing
    | CustomSizing(name: string)

  /** A CellSizeCalculator object: its class and its mutable style fields. */
  class CellSizeCalculator {
    const family: CalculatorFamily
    var style: Style

    constructor (family: CalculatorFamily, style: Style)
      ensures this.family == family && this.style == style
    {
      this.family := family;
      this.style := style;
    }
  }

  /** The calculators' own `sizeForItem(at:)` and `configure(attributes:)`,
      which are not part of this model: opaque in the calculator's class,
      its style and its input. */
  datatype SizingOracle = SizingOracle(
    sizeForItem: (CalculatorFamily, Style, IndexPath) -> Size,
    configure: (CalculatorFamily, Style, IndexPath, MessagesLayoutAttributes) -> MessagesLayoutAttributes)
}
