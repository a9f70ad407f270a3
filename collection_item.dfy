// MessageCollectionViewItem: the base renderer. It copies precomputed frames
// from the layout attributes onto its four views, clears its two labels for
// reuse, and takes its label texts and container styling from the
// application's data source and display delegate.
module CollectionItem {
  import opened Kit
  import opened Collaborators

  /** The four views `setupSubviews` adds to the item's view. */
  datatype ItemSubview = MessageContainerView | AvatarView | CellTopLabel | CellBottomLabel

  /** An NSTextField's two faces: its plain and its attributed value. */
  datatype LabelText = LabelText(stringValue: string, attributedStringValue: AttributedString)

  /** Setting `attributedStringValue` also sets `stringValue` to its string. */
  function ShowingAttributed(s: AttributedString): (t: LabelText)
    ensures t.attributedStringValue == s && t.stringValue == s.plainString
  {
    LabelText(s.plainString, s)
  }

  const EmptyLabel := LabelText("", EmptyAttributedString)

  /** The label's value after `configure`: the data source's text, or an
      empty attributed string when it has none. */
  function LabelFor(text: Option<AttributedString>): (t: LabelText)
    ensures text.Some? ==> t.attributedStringValue == text.value && t.stringValue == text.value.plainString
    ensures text.None? ==> t == EmptyLabel
  {
    ShowingAttributed(text.GetOr(EmptyAttributedString))
  }

  class MessageCollectionViewItem {
    var viewFrame: Rect
    var subviews: seq<ItemSubview>
    var avatarFrame: Rect
    var cellTopLabelFrame: Rect
    var cellBottomLabelFrame: Rect
    var messageContainerFrame: Rect
    var cellTopLabel: LabelText
    var cellBottomLabel: LabelText
    var delegate: Option<CellDelegate>
    var containerBackground: Option<Color>
    var containerStyle: Option<MessageStyle>

    /** `init(frame:)`: a view of the given frame whose subviews are the
        container, the avatar and the two labels, all zero-framed and empty. */
    constructor (frame: Rect)
      ensures viewFrame == frame
      ensures subviews == [MessageContainerView, AvatarView, CellTopLabel, CellBottomLabel]
      ensures avatarFrame == ZeroRect && cellTopLabelFrame == ZeroRect
      ensures cellBottomLabelFrame == ZeroRect && messageContainerFrame == ZeroRect
      ensures cellTopLabel == EmptyLabel && cellBottomLabel == EmptyLabel
      ensures delegate == None && containerBackground == None && containerStyle == None
    {
      viewFrame := frame;
      subviews := [];
      avatarFrame := ZeroRect;
      cellTopLabelFrame := ZeroRect;
      cellBottomLabelFrame := ZeroRect;
      messageContainerFrame := ZeroRect;
      cellTopLabel := EmptyLabel;
      cellBottomLabel := EmptyLabel;
      delegate := None;
      containerBackground := None;
      containerStyle := None;
      new;
      SetupSubviews();
    }

    /** `setupSubviews`: adds exactly the container, the avatar, the top label
        and the bottom label, in that order. */
    method SetupSubviews()
      modifies this`subviews
      ensures subviews == old(subviews) + [MessageContainerView, AvatarView, CellTopLabel, CellBottomLabel]
    {
      subviews := subviews + [MessageContainerView];
      subviews := subviews + [AvatarView];
      subviews := subviews + [CellTopLabel];
      subviews := subviews + [CellBottomLabel];
    }

    /** `prepareForReuse`: both labels end with an empty string and an empty
        attributed string. */
    method PrepareForReuse()
      modifies this`cellTopLabel, this`cellBottomLabel
      ensures cellTopLabel == EmptyLabel && cellBottomLabel == EmptyLabel
      ensures cellTopLabel.stringValue == "" && cellBottomLabel.attributedStringValue == EmptyAttributedString
    {
      cellTopLabel := cellTopLabel.(stringValue := "");
      cellTopLabel := ShowingAttributed(EmptyAttributedString);
      cellBottomLabel := cellBottomLabel.(stringValue := "");
      cellBottomLabel := ShowingAttributed(EmptyAttributedString);
    }

    /** `apply(_:)`: the framework's attributes set the four frames to the
        precomputed ones; any other attributes leave them as they were. */
    method Apply(layoutAttributes: CollectionLayoutAttributes)
      modifies this`avatarFrame, this`cellTopLabelFrame, this`cellBottomLabelFrame, this`messageContainerFrame
      ensures layoutAttributes.PlainAttributes? ==> unchanged(this)
      ensures layoutAttributes.MessagesAttributes? ==>
        var a := layoutAttributes.attributes;
        && avatarFrame == a.avatarFrame
        && cellTopLabelFrame == a.topLabelFrame
        && cellBottomLabelFrame == a.bottomLabelFrame
        && messageContainerFrame == a.messageContainerFrame
    {
      if layoutAttributes.MessagesAttributes? {
        var a := layoutAttributes.attributes;
        avatarFrame := a.avatarFrame;
        cellTopLabelFrame := a.topLabelFrame;
        cellBottomLabelFrame := a.bottomLabelFrame;
        messageContainerFrame := a.messageContainerFrame;
      }
    }

    /** `configure(with:at:and:)`: fatal without a data source or a display
        delegate; otherwise the cell delegate, the container's colour and
        style, and the two label texts (empty when nil) are taken over. */
    method Configure(message: Message, indexPath: IndexPath, view: MessagesCollectionView) returns (outcome: Outcome)
      modifies this`delegate, this`containerBackground, this`containerStyle, this`cellTopLabel, this`cellBottomLabel
      ensures view.messagesDataSource.None? ==> outcome == Fatal(NilMessagesDataSource) && unchanged(this)
      ensures view.messagesDataSource.Some? && view.messagesDisplayDelegate.None? ==>
        outcome == Fatal(NilMessagesDisplayDelegate) && unchanged(this)
      ensures view.messagesDataSource.Some? && view.messagesDisplayDelegate.Some? ==>
        var dataSource, displayDelegate := view.messagesDataSource.value, view.messagesDisplayDelegate.value;
        && outcome == Done
        && delegate == view.messageCellDelegate
        && containerBackground == Some(displayDelegate.backgroundColor(message, indexPath))
        && containerStyle == Some(displayDelegate.messageStyle(message, indexPath))
        && cellTopLabel == LabelFor(dataSource.cellTopLabelAttributedText(message, indexPath))
        && cellBottomLabel == LabelFor(dataSource.cellBottomLabelAttributedText(message, indexPath))
    {
      if view.messagesDataSource.None? {
        return Fatal(NilMessagesDataSource);
      }
      var dataSource := view.messagesDataSource.value;
      if view.messagesDisplayDelegate.None? {
        return Fatal(NilMessagesDisplayDelegate);
      }
      var displayDelegate := view.messagesDisplayDelegate.value;
      delegate := view.messageCellDelegate;
      containerBackground := Some(displayDelegate.backgroundColor(message, indexPath));
      containerStyle := Some(displayDelegate.messageStyle(message, indexPath));
      var topText := dataSource.cellTopLabelAttributedText(message, indexPath);
      var bottomText := dataSource.cellBottomLabelAttributedText(message, indexPath);
      cellTopLabel := ShowingAttributed(topText.GetOr(EmptyAttributedString));
      cellBottomLabel := ShowingAttributed(bottomText.GetOr(EmptyAttributedString));
      outcome := Done;
    }
  }
}
