// Value types the framework's core reads and writes. Most of them are
// declared in files that are not part of this model (the message protocol,
// the layout-attributes subclass, the error enumeration); they are given
// here with exactly the fields the modelled code touches.
module Kit {
  import opened EdgeInsets
  import opened TextAlignment

  datatype Option<T> = None | Some(value: T) {
    function GetOr(default: T): T {
      match this
      case Some(v) => v
      case None => default
    }
  }

  /** The `fatalError(MessageKitError....)` messages of the framework. Each is
      a wiring or configuration mistake; the model reports it as a value. */
  datatype MessageKitError =
    | NilMessagesDataSource
    | NilMessagesDisplayDelegate
    | NilMessagesLayoutDelegate
    | NotMessagesCollectionView
    | LayoutUsedOnForeignType
    | AvatarPositionUnresolved
    | UnrecognizedCheckingResult
    | UnrecognizedResultType      // the literal message of MessageLabel's grouping loop
    | UnrecognizedSectionKind

  /** A computation that either yields a value or stops at a fatal error. */
  datatype Result<T> = Success(value: T) | Failure(error: MessageKitError)

  /** A state change that either completes or stops at a fatal error. */
  datatype Outcome = Done | Fatal(error: MessageKitError)

  // ---------------------------------------------------------------------
  // CoreGraphics geometry, with CGFloat as real.

  datatype Size = Size(width: real, height: real)

  const ZeroSize := Size(0.0, 0.0)

  datatype Point = Point(x: real, y: real)

  /** CGRect. Its derived edges are those of the standardised rectangle, so a
      negative height or width still gives minY <= maxY. */
  datatype Rect = Rect(origin: Point, size: Size) {
    function MinY(): real {
      if size.height >= 0.0 then origin.y else origin.y + size.height
    }
    function MaxY(): real {
      if size.height >= 0.0 then origin.y + size.height else origin.y
    }
    function MidY(): real {
      origin.y + size.height / 2.0
    }
    function MinX(): real {
      if size.width >= 0.0 then origin.x else origin.x + size.width
    }
    function MaxX(): real {
      if size.width >= 0.0 then origin.x + size.width else origin.x
    }
    function Width(): real {
      if size.width >= 0.0 then size.width else -size.width
    }
    function Height(): real {
      if size.height >= 0.0 then size.height else -size.height
    }
  }

  const ZeroRect := Rect(Point(0.0, 0.0), ZeroSize)

  // ---------------------------------------------------------------------
  // The message model.

  datatype IndexPath = IndexPath(section: int, item: int)

  /** An NSAttributedString, seen through its plain `string` (here `plainString`); its attributes
      are not part of this model. */
  datatype AttributedString = AttributedString(plainString: string)

  const EmptyAttributedString := AttributedString("")

  /** Opaque handles for toolkit objects the core only passes along. */
  datatype Image = Image(id: nat)
  datatype Color = Color(id: nat)
  datatype MessageStyle = MessageStyle(id: nat)

  datatype MediaItem = MediaItem(url: Option<string>, image: Option<Image>, placeholderImage: Image, size: Size)

  datatype LocationItem = LocationItem(latitude: real, longitude: real, size: Size)

  datatype MessageKind =
    | Text(text: string)
    | AttributedText(attributedText: AttributedString)
    | Emoji(emoji: string)
    | Photo(photo: MediaItem)
    | Video(video: MediaItem)
    | Location(location: LocationItem)
    | Custom(payload: nat)
  {
    /** The case of a kind, without its associated value. */
    function Tag(): MessageKindTag {
      match this
      case Text(_) => TextKind
      case AttributedText(_) => AttributedTextKind
      case Emoji(_) => EmojiKind
      case Photo(_) => PhotoKind
      case Video(_) => VideoKind
      case Location(_) => LocationKind
      case Custom(_) => CustomKind
    }
  }

  datatype MessageKindTag = TextKind | AttributedTextKind | EmojiKind | PhotoKind | VideoKind | LocationKind | CustomKind

  datatype Sender = Sender(senderId: string, displayName: string)

  datatype Message = Message(messageId: string, sender: Sender, sentDate: int, kind: MessageKind)

  // ---------------------------------------------------------------------
  // Style values shared by the size calculators and the layout attributes.

  datatype HorizontalPosition = CellLeading | CellTrailing | Natural

  datatype VerticalPosition = CellTop | MessageLabelTop | MessageTop | MessageCenter | MessageBottom | CellBottom

  datatype AvatarPosition = AvatarPosition(horizontal: HorizontalPosition, vertical: VerticalPosition)

  datatype LabelAlignment = LabelAlignment(textAlignment: NSTextAlignment, textInsets: NSEdgeInsets)

  datatype HorizontalEdgeInsets = HorizontalEdgeInsets(left: real, right: real)

  /** MessagesCollectionViewLayoutAttributes: everything a cell reads from it.
      The attributes' `size` is the size of `frame`. */
  datatype MessagesLayoutAttributes = MessagesLayoutAttributes(
    frame: Rect,
    avatarPosition: AvatarPosition,
    avatarSize: Size,
    messageContainerSize: Size,
    messageContainerPadding: NSEdgeInsets,
    cellTopLabelSize: Size,
    messageTopLabelSize: Size,
    messageBottomLabelSize: Size,
    accessoryViewSize: Size,
    messageTopLabelAlignment: LabelAlignment,
    messageBottomLabelAlignment: LabelAlignment,
    avatarFrame: Rect,
    topLabelFrame: Rect,
    bottomLabelFrame: Rect,
    messageContainerFrame: Rect)

  /** What an item's `apply(_:)` receives: either the framework's attributes
      subclass or plain NSCollectionViewLayoutAttributes. */
  datatype CollectionLayoutAttributes =
    | MessagesAttributes(attributes: MessagesLayoutAttributes)
    | PlainAttributes(frame: Rect)

  datatype ElementCategory = ItemCategory | SupplementaryViewCategory | DecorationViewCategory | InterItemGapCategory
}
