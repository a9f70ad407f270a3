// MessageContentItem: the cell that shows text, media and location messages.
// Applying layout attributes places its message container, its two message
// labels, its cell top label and its avatar, in that order; the labels and
// the avatar read the container frame written first.
module ContentItem {
  import opened Kit
  import opened EdgeInsets
  import opened TextAlignment
  import opened Collaborators

  /** The views and layers `setupSubviews` adds to the item's view. */
  datatype ContentSubview = MessageContainerSubview | AvatarSubview
  datatype ContentSublayer = CellTopLabelLayer | MessageTopLabelLayer | MessageBottomLabelLayer

  /** The five frames a cell's layout decides. */
  datatype CellFrames = CellFrames(container: Rect, messageBottomLabel: Rect, cellTopLabel: Rect, messageTopLabel: Rect, avatar: Rect)

  // ---------------------------------------------------------------------
  // The geometry, as functions of the attributes and the frames already set.

  /** The container's y in the default branch of `layoutMessageContainerView`:
      centred in the cell when the accessory view is taller than the
      container, stacked under the two top labels otherwise. */
  function StackedOriginY(a: MessagesLayoutAttributes): real {
    if a.accessoryViewSize.height > a.messageContainerSize.height
    then CentredOriginY(a)
    else a.cellTopLabelSize.height + a.messageTopLabelSize.height + a.messageContainerPadding.top
  }

  /** The y that centres the padded container in the cell's height. */
  function CentredOriginY(a: MessagesLayoutAttributes): real {
    a.frame.size.height / 2.0 - (a.messageContainerSize.height + a.messageContainerPadding.Vertical()) / 2.0
  }

  /** The container's y, by the avatar's vertical position. The
      `.messageBottom` branch subtracts the top padding as the code does. A
      `.messageCenter` avatar that is not taller than the container falls
      through to the default branch. */
  function ContainerOriginY(a: MessagesLayoutAttributes): real {
    match a.avatarPosition.vertical
    case MessageBottom =>
      a.frame.size.height - a.messageContainerPadding.bottom - a.messageBottomLabelSize.height
        - a.messageContainerSize.height - a.messageContainerPadding.top
    case MessageCenter =>
      if a.avatarSize.height > a.messageContainerSize.height then CentredOriginY(a) else StackedOriginY(a)
    case _ => StackedOriginY(a)
  }

  /** The container's x: beside a leading avatar, or before a trailing one. */
  function ContainerOriginX(a: MessagesLayoutAttributes): real
    requires !a.avatarPosition.horizontal.Natural?
  {
    match a.avatarPosition.horizontal
    case CellLeading => a.avatarSize.width + a.messageContainerPadding.left
    case CellTrailing =>
      a.frame.Width() - a.avatarSize.width - a.messageContainerSize.width - a.messageContainerPadding.right
  }

  function ContainerFrame(a: MessagesLayoutAttributes): Rect
    requires !a.avatarPosition.horizontal.Natural?
  {
    Rect(Point(ContainerOriginX(a), ContainerOriginY(a)), a.messageContainerSize)
  }

  function MessageBottomLabelFrame(a: MessagesLayoutAttributes, container: Rect): Rect {
    Rect(Point(0.0, container.MaxY() + a.messageContainerPadding.bottom), a.messageBottomLabelSize)
  }

  function CellTopLabelFrame(a: MessagesLayoutAttributes): Rect {
    Rect(Point(0.0, 0.0), a.cellTopLabelSize)
  }

  function MessageTopLabelFrame(a: MessagesLayoutAttributes, container: Rect): Rect {
    Rect(Point(0.0, container.MinY() - a.messageContainerPadding.top - a.messageTopLabelSize.height), a.messageTopLabelSize)
  }

  /** The avatar's frame, from the message top label and container frames in
      place when `layoutAvatarView` runs. A `.cellTop` avatar keeps y = 0. */
  function AvatarFrame(a: MessagesLayoutAttributes, messageTopLabel: Rect, container: Rect): Rect
    requires !a.avatarPosition.horizontal.Natural?
  {
    var x := if a.avatarPosition.horizontal == CellTrailing then a.frame.Width() - a.avatarSize.width else 0.0;
    var y := match a.avatarPosition.vertical
      case MessageLabelTop => messageTopLabel.MinY()
      case MessageTop => container.MinY()
      case MessageBottom => container.MaxY() - a.avatarSize.height
      case MessageCenter => container.MidY() - a.avatarSize.height / 2.0
      case CellBottom => a.frame.Height() - a.avatarSize.height
      case CellTop => 0.0;
    Rect(Point(x, y), a.avatarSize)
  }

  /** The frames `apply(_:)` leaves in place, computed in its order; an
      unresolved (`.natural`) horizontal avatar position is fatal. */
  function CellLayout(a: MessagesLayoutAttributes): (r: Result<CellFrames>)
    ensures r.Failure? <==> a.avatarPosition.horizontal.Natural?
    ensures r.Failure? ==> r.error == AvatarPositionUnresolved
    ensures r.Success? ==>
      && r.value.container.size == a.messageContainerSize
      && r.value.avatar.size == a.avatarSize
      && r.value.cellTopLabel.size == a.cellTopLabelSize
      && r.value.messageTopLabel.size == a.messageTopLabelSize
      && r.value.messageBottomLabel.size == a.messageBottomLabelSize
  {
    if a.avatarPosition.horizontal.Natural? then Failure(AvatarPositionUnresolved)
    else
      var container := ContainerFrame(a);
      var messageTop := MessageTopLabelFrame(a, container);
      Success(CellFrames(container, MessageBottomLabelFrame(a, container), CellTopLabelFrame(a),
                         messageTop, AvatarFrame(a, messageTop, container)))
  }

  // ---------------------------------------------------------------------
  // What the placement promises.

  /** A `.messageBottom` avatar ends where the container ends. */
  lemma AvatarBottomMeetsContainerBottom(a: MessagesLayoutAttributes)
    requires !a.avatarPosition.horizontal.Natural? && a.avatarPosition.vertical == MessageBottom
    ensures var f := CellLayout(a).value;
      && f.avatar.origin.y + f.avatar.size.height == f.container.MaxY()
      && (a.avatarSize.height >= 0.0 ==> f.avatar.MaxY() == f.container.MaxY())
  {
  }

  /** A `.messageCenter` avatar shares the container's vertical midpoint. */
  lemma AvatarCentredOnContainer(a: MessagesLayoutAttributes)
    requires !a.avatarPosition.horizontal.Natural? && a.avatarPosition.vertical == MessageCenter
    ensures var f := CellLayout(a).value; f.avatar.MidY() == f.container.MidY()
  {
  }

  /** A `.messageCenter` avatar no taller than the container places the
      container exactly as any position of the default branch does. */
  lemma CenterFallsThroughToDefault(a: MessagesLayoutAttributes, v: VerticalPosition)
    requires !a.avatarPosition.horizontal.Natural? && a.avatarPosition.vertical == MessageCenter
    requires a.avatarSize.height <= a.messageContainerSize.height
    requires v != MessageBottom && v != MessageCenter
    ensures CellLayout(a).value.container == CellLayout(a.(avatarPosition := AvatarPosition(a.avatarPosition.horizontal, v))).value.container
  {
  }

  /** In the default branch, with an accessory view no taller than the
      container, the container sits under the cell top label, the message
      top label and the top padding; the message top label then starts
      right under the cell top label. */
  lemma DefaultBranchStacksUnderTopLabels(a: MessagesLayoutAttributes)
    requires !a.avatarPosition.horizontal.Natural?
    requires a.avatarPosition.vertical != MessageBottom
    requires a.avatarPosition.vertical == MessageCenter ==> a.avatarSize.height <= a.messageContainerSize.height
    requires a.accessoryViewSize.height <= a.messageContainerSize.height
    ensures var f := CellLayout(a).value;
      && f.container.origin.y == a.cellTopLabelSize.height + a.messageTopLabelSize.height + a.messageContainerPadding.top
      && (a.messageContainerSize.height >= 0.0 ==> f.messageTopLabel.origin.y == a.cellTopLabelSize.height)
  {
  }

  /** The message top label ends the top padding above the container and the
      bottom label starts the bottom padding below it; both are flush left,
      and the cell top label sits at the origin. */
  lemma LabelsHugContainer(a: MessagesLayoutAttributes)
    requires !a.avatarPosition.horizontal.Natural?
    ensures var f := CellLayout(a).value;
      && f.messageTopLabel.origin.y + f.messageTopLabel.size.height == f.container.MinY() - a.messageContainerPadding.top
      && f.messageBottomLabel.origin.y == f.container.MaxY() + a.messageContainerPadding.bottom
      && f.messageTopLabel.origin.x == 0.0 && f.messageBottomLabel.origin.x == 0.0
      && f.cellTopLabel.origin == Point(0.0, 0.0)
  {
  }

  /** A leading avatar sits at x = 0 and the container starts the left padding
      after it. */
  lemma LeadingAvatarPlacement(a: MessagesLayoutAttributes)
    requires a.avatarPosition.horizontal == CellLeading
    ensures var f := CellLayout(a).value;
      && f.avatar.origin.x == 0.0
      && f.container.origin.x == a.avatarSize.width + a.messageContainerPadding.left
  {
  }

  /** A trailing avatar ends at the cell's right edge, and the container ends
      the right padding before the avatar starts. */
  lemma TrailingAvatarPlacement(a: MessagesLayoutAttributes)
    requires a.avatarPosition.horizontal == CellTrailing
    ensures var f := CellLayout(a).value;
      && f.avatar.origin.x + a.avatarSize.width == a.frame.Width()
      && f.container.origin.x + f.container.size.width + a.messageContainerPadding.right == f.avatar.origin.x
  {
  }

  // ---------------------------------------------------------------------
  // The item.

  class MessageContentItem {
    var avatarFrame: Rect
    var messageContainerFrame: Rect
    var cellTopLabelFrame: Rect
    var messageTopLabelFrame: Rect
    var messageBottomLabelFrame: Rect
    var cellTopLabelAlignmentMode: LayerAlignmentMode
    var messageTopLabelAlignmentMode: LayerAlignmentMode
    var messageBottomLabelAlignmentMode: LayerAlignmentMode
    var cellTopLabelString: Option<AttributedString>
    var messageTopLabelString: Option<AttributedString>
    var messageBottomLabelString: Option<AttributedString>
    var subviews: seq<ContentSubview>
    var sublayers: seq<ContentSublayer>
    var delegate: Option<CellDelegate>
    var containerBackground: Option<Color>
    var containerStyle: Option<MessageStyle>

    function Frames(): CellFrames
      reads this
    {
      CellFrames(messageContainerFrame, messageBottomLabelFrame, cellTopLabelFrame, messageTopLabelFrame, avatarFrame)
    }

    /** A fresh item: zero frames, a centred cell top label, no label text,
        no subviews until `loadView`. */
    constructor ()
      ensures Frames() == CellFrames(ZeroRect, ZeroRect, ZeroRect, ZeroRect, ZeroRect)
      ensures cellTopLabelAlignmentMode == CenterMode
      ensures messageTopLabelAlignmentMode == NaturalMode && messageBottomLabelAlignmentMode == NaturalMode
      ensures cellTopLabelString == None && messageTopLabelString == None && messageBottomLabelString == None
      ensures subviews == [] && sublayers == [] && delegate == None
      ensures containerBackground == None && containerStyle == None
    {
      avatarFrame := ZeroRect;
      messageContainerFrame := ZeroRect;
      cellTopLabelFrame := ZeroRect;
      messageTopLabelFrame := ZeroRect;
      messageBottomLabelFrame := ZeroRect;
      cellTopLabelAlignmentMode := CenterMode;
      messageTopLabelAlignmentMode := NaturalMode;
      messageBottomLabelAlignmentMode := NaturalMode;
      cellTopLabelString := None;
      messageTopLabelString := None;
      messageBottomLabelString := None;
      subviews := [];
      sublayers := [];
      delegate := None;
      containerBackground := None;
      containerStyle := None;
    }

    /** `setupSubviews`: the container and the avatar become subviews, the
        three labels sublayers, in that order. */
    method SetupSubviews()
      modifies this`subviews, this`sublayers
      ensures subviews == old(subviews) + [MessageContainerSubview, AvatarSubview]
      ensures sublayers == old(sublayers) + [CellTopLabelLayer, MessageTopLabelLayer, MessageBottomLabelLayer]
    {
      subviews := subviews + [MessageContainerSubview];
      subviews := subviews + [AvatarSubview];
      sublayers := sublayers + [CellTopLabelLayer];
      sublayers := sublayers + [MessageTopLabelLayer];
      sublayers := sublayers + [MessageBottomLabelLayer];
    }

    /** `prepareForReuse`: the three labels lose their strings. */
    method PrepareForReuse()
      modifies this`cellTopLabelString, this`messageTopLabelString, this`messageBottomLabelString
      ensures cellTopLabelString == None && messageTopLabelString == None && messageBottomLabelString == None
    {
      cellTopLabelString := None;
      messageTopLabelString := None;
      messageBottomLabelString := None;
    }

    /** `configure(with:at:and:)`: fatal without a data source or a display
        delegate; otherwise it takes the cell delegate, the container's colour
        and style from the display delegate, and the three label strings
        from the data source, nil included. */
    method Configure(message: Message, indexPath: IndexPath, view: MessagesCollectionView) returns (outcome: Outcome)
      modifies this`delegate, this`containerBackground, this`containerStyle
      modifies this`cellTopLabelString, this`messageTopLabelString, this`messageBottomLabelString
      ensures view.messagesDataSource.None? ==> outcome == Fatal(NilMessagesDataSource) && unchanged(this)
      ensures view.messagesDataSource.Some? && view.messagesDisplayDelegate.None? ==>
        outcome == Fatal(NilMessagesDisplayDelegate) && unchanged(this)
      ensures view.messagesDataSource.Some? && view.messagesDisplayDelegate.Some? ==>
        var dataSource, displayDelegate := view.messagesDataSource.value, view.messagesDisplayDelegate.value;
        && outcome == Done
        && delegate == view.messageCellDelegate
        && containerBackground == Some(displayDelegate.backgroundColor(message, indexPath))
        && containerStyle == Some(displayDelegate.messageStyle(message, indexPath))
        && cellTopLabelString == dataSource.cellTopLabelAttributedText(message, indexPath)
        && messageTopLabelString == dataSource.messageTopLabelAttributedText(message, indexPath)
        && messageBottomLabelString == dataSource.messageBottomLabelAttributedText(message, indexPath)
    {
      if view.messagesDataSource.None? {
        return Fatal(NilMessagesDataSource);
      }
      var dataSource := view.messagesDataSource.value;
      if view.messagesDisplayDelegate.None? {
        return Fatal(NilMessagesDisplayDelegate);
      }
      var displayDelegate := view.messagesDisplayDelegate.value;
      delegate := view.messageCellDelegate;
      var messageColor := displayDelegate.backgroundColor(message, indexPath);
      var messageStyle := displayDelegate.messageStyle(message, indexPath);
      containerBackground := Some(messageColor);
      containerStyle := Some(messageStyle);
      cellTopLabelString := dataSource.cellTopLabelAttributedText(message, indexPath);
      messageTopLabelString := dataSource.messageTopLabelAttributedText(message, indexPath);
      messageBottomLabelString := dataSource.messageBottomLabelAttributedText(message, indexPath);
      outcome := Done;
    }

    /** `layoutAvatarView(with:)`, reading the message top label and container
        frames already in place. */
    method LayoutAvatarView(a: MessagesLayoutAttributes) returns (outcome: Outcome)
      modifies this`avatarFrame
      ensures outcome == if a.avatarPosition.horizontal.Natural? then Fatal(AvatarPositionUnresolved) else Done
      ensures outcome.Done? ==> avatarFrame == AvatarFrame(a, messageTopLabelFrame, messageContainerFrame)
      ensures outcome.Fatal? ==> avatarFrame == old(avatarFrame)
    {
      var origin := Point(0.0, 0.0);
      match a.avatarPosition.horizontal {
        case CellLeading =>
        case CellTrailing =>
          origin := origin.(x := a.frame.Width() - a.avatarSize.width);
        case Natural =>
          return Fatal(AvatarPositionUnresolved);
      }
      match a.avatarPosition.vertical {
        case MessageLabelTop =>
          origin := origin.(y := messageTopLabelFrame.MinY());
        case MessageTop =>
          origin := origin.(y := messageContainerFrame.MinY());
        case MessageBottom =>
          origin := origin.(y := messageContainerFrame.MaxY() - a.avatarSize.height);
        case MessageCenter =>
          origin := origin.(y := messageContainerFrame.MidY() - a.avatarSize.height / 2.0);
        case CellBottom =>
          origin := origin.(y := a.frame.Height() - a.avatarSize.height);
        case CellTop =>
      }
      avatarFrame := Rect(origin, a.avatarSize);
      outcome := Done;
    }

    /** `layoutMessageContainerView(with:)`. */
    method LayoutMessageContainerView(a: MessagesLayoutAttributes) returns (outcome: Outcome)
      modifies this`messageContainerFrame
      ensures outcome == if a.avatarPosition.horizontal.Natural? then Fatal(AvatarPositionUnresolved) else Done
      ensures outcome.Done? ==> messageContainerFrame == ContainerFrame(a)
      ensures outcome.Fatal? ==> messageContainerFrame == old(messageContainerFrame)
    {
      var origin := Point(0.0, 0.0);
      var vertical := a.avatarPosition.vertical;
      if vertical == MessageBottom {
        origin := origin.(y := a.frame.size.height - a.messageContainerPadding.bottom - a.messageBottomLabelSize.height
                               - a.messageContainerSize.height - a.messageContainerPadding.top);
      } else if vertical == MessageCenter && a.avatarSize.height > a.messageContainerSize.height {
        var messageHeight := a.messageContainerSize.height + a.messageContainerPadding.Vertical();
        origin := origin.(y := a.frame.size.height / 2.0 - messageHeight / 2.0);
      } else if a.accessoryViewSize.height > a.messageContainerSize.height {
        var messageHeight := a.messageContainerSize.height + a.messageContainerPadding.Vertical();
        origin := origin.(y := a.frame.size.height / 2.0 - messageHeight / 2.0);
      } else {
        origin := origin.(y := a.cellTopLabelSize.height + a.messageTopLabelSize.height + a.messageContainerPadding.top);
      }
      match a.avatarPosition.horizontal {
        case CellLeading =>
          origin := origin.(x := a.avatarSize.width + a.messageContainerPadding.left);
        case CellTrailing =>
          origin := origin.(x := a.frame.Width() - a.avatarSize.width - a.messageContainerSize.width
                                 - a.messageContainerPadding.right);
        case Natural =>
          return Fatal(AvatarPositionUnresolved);
      }
      messageContainerFrame := Rect(origin, a.messageContainerSize);
      outcome := Done;
    }

    /** `layoutCellTopLabel(with:)`. */
    method LayoutCellTopLabel(a: MessagesLayoutAttributes)
      modifies this`cellTopLabelFrame
      ensures cellTopLabelFrame == CellTopLabelFrame(a)
    {
      cellTopLabelFrame := Rect(Point(0.0, 0.0), a.cellTopLabelSize);
    }

    /** `layoutMessageTopLabel(with:)`: the layer alignment comes from the
        attributes' text alignment; the label sits above the container. */
    method LayoutMessageTopLabel(a: MessagesLayoutAttributes)
      modifies this`messageTopLabelAlignmentMode, this`messageTopLabelFrame
      ensures messageTopLabelAlignmentMode == LayerAlignment(a.messageTopLabelAlignment.textAlignment)
      ensures messageTopLabelFrame == MessageTopLabelFrame(a, messageContainerFrame)
    {
      messageTopLabelAlignmentMode := LayerAlignment(a.messageTopLabelAlignment.textAlignment);
      var y := messageContainerFrame.MinY() - a.messageContainerPadding.top - a.messageTopLabelSize.height;
      messageTopLabelFrame := Rect(Point(0.0, y), a.messageTopLabelSize);
    }

    /** `layoutBottomLabel(with:)`: the label sits below the container. */
    method LayoutBottomLabel(a: MessagesLayoutAttributes)
      modifies this`messageBottomLabelAlignmentMode, this`messageBottomLabelFrame
      ensures messageBottomLabelAlignmentMode == LayerAlignment(a.messageBottomLabelAlignment.textAlignment)
      ensures messageBottomLabelFrame == MessageBottomLabelFrame(a, messageContainerFrame)
    {
      messageBottomLabelAlignmentMode := LayerAlignment(a.messageBottomLabelAlignment.textAlignment);
      var y := messageContainerFrame.MaxY() + a.messageContainerPadding.bottom;
      messageBottomLabelFrame := Rect(Point(0.0, y), a.messageBottomLabelSize);
    }

    /** `apply(_:)`: plain attributes change nothing; the framework's
        attributes lay out the container first, then the bottom label, the
        cell top label, the message top label and the avatar. */
    method Apply(layoutAttributes: CollectionLayoutAttributes) returns (outcome: Outcome)
      modifies this`avatarFrame, this`messageContainerFrame, this`cellTopLabelFrame
      modifies this`messageTopLabelFrame, this`messageBottomLabelFrame
      modifies this`messageTopLabelAlignmentMode, this`messageBottomLabelAlignmentMode
      ensures layoutAttributes.PlainAttributes? ==> outcome == Done && unchanged(this)
      ensures layoutAttributes.MessagesAttributes? ==>
        var a := layoutAttributes.attributes;
        match CellLayout(a)
        case Failure(e) => outcome == Fatal(e) && unchanged(this)
        case Success(frames) =>
          && outcome == Done
          && Frames() == frames
          && messageTopLabelAlignmentMode == LayerAlignment(a.messageTopLabelAlignment.textAlignment)
          && messageBottomLabelAlignmentMode == LayerAlignment(a.messageBottomLabelAlignment.textAlignment)
    {
      if layoutAttributes.PlainAttributes? {
        return Done;
      }
      var a := layoutAttributes.attributes;
      outcome := LayoutMessageContainerView(a);
      if outcome.Fatal? {
        return;
      }
      LayoutBottomLabel(a);
      LayoutCellTopLabel(a);
      LayoutMessageTopLabel(a);
      outcome := LayoutAvatarView(a);
    }
  }
}
