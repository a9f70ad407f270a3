// The flow-layout delegate side of MessagesViewController: item sizes come
// from the messages layout, header and footer sizes from the layout
// delegate, and the context menu offers "copy" for the kinds that have
// something to copy.
module ControllerDelegate {
  import opened Kit
  import opened Calculators
  import opened Collaborators
  import opened FlowLayout

  /** The `collectionViewLayout` argument: the framework's flow layout, or
      some other layout. */
  datatype LayoutArgument = MessagesFlowLayout(layout: MessagesCollectionViewFlowLayout) | OtherLayout

  /** What `performAction` writes to the general pasteboard. */
  datatype Payload = StringPayload(text: string) | ImagePayload(image: Image)

  /** The kinds `shouldShowMenuForItemAt` offers a menu for. */
  predicate ShowsMenu(kind: MessageKind) {
    kind.Text? || kind.AttributedText? || kind.Emoji? || kind.Photo?
  }

  /** The switch of `performAction`: text and emoji copy their string, an
      attributed text its plain string, a photo its image or else its
      placeholder; every other kind writes nothing. */
  function CopyPayload(kind: MessageKind): (p: Option<Payload>)
    ensures kind.Text? ==> p == Some(StringPayload(kind.text))
    ensures kind.Emoji? ==> p == Some(StringPayload(kind.emoji))
    ensures kind.AttributedText? ==> p == Some(StringPayload(kind.attributedText.plainString))
    ensures kind.Photo? ==> p == Some(ImagePayload(kind.photo.image.GetOr(kind.photo.placeholderImage)))
    ensures kind.Video? || kind.Location? || kind.Custom? ==> p.None?
  {
    match kind
    case Text(text) => Some(StringPayload(text))
    case Emoji(text) => Some(StringPayload(text))
    case AttributedText(attributedText) => Some(StringPayload(attributedText.plainString))
    case Photo(mediaItem) =>
      Some(ImagePayload(if mediaItem.image.Some? then mediaItem.image.value else mediaItem.placeholderImage))
    case _ => None
  }

  /** The menu is offered exactly for the kinds that have something to copy. */
  lemma MenuKindsAreCopyKinds(kind: MessageKind)
    ensures ShowsMenu(kind) <==> CopyPayload(kind).Some?
  {
  }

  /** `canPerformAction`: only the `copy:` selector. */
  function CanPerformAction(action: string): (can: bool)
    ensures can ==> action == "copy:"
    ensures action == "copy:" ==> can
  {
    action == "copy:"
  }

  /** `referenceSizeForHeaderInSection`: the layout delegate's header size;
      fatal for a foreign collection view or a missing layout delegate. */
  function ReferenceSizeForHeader(collectionView: CollectionViewArgument, section: int): (r: Result<Size>)
    ensures collectionView.ForeignCollectionView? ==> r == Failure(NotMessagesCollectionView)
    ensures collectionView.MessagesView? && collectionView.view.messagesLayoutDelegate.None? ==>
      r == Failure(NilMessagesLayoutDelegate)
    ensures r.Success? ==> r.value == collectionView.view.messagesLayoutDelegate.value.headerViewSize(section)
  {
    match collectionView
    case ForeignCollectionView => Failure(NotMessagesCollectionView)
    case MessagesView(view) =>
      match view.messagesLayoutDelegate
      case None => Failure(NilMessagesLayoutDelegate)
      case Some(layoutDelegate) => Success(layoutDelegate.headerViewSize(section))
  }

  /** `referenceSizeForFooterInSection`: the same guards, the footer size. */
  function ReferenceSizeForFooter(collectionView: CollectionViewArgument, section: int): (r: Result<Size>)
    ensures collectionView.ForeignCollectionView? ==> r == Failure(NotMessagesCollectionView)
    ensures collectionView.MessagesView? && collectionView.view.messagesLayoutDelegate.None? ==>
      r == Failure(NilMessagesLayoutDelegate)
    ensures r.Success? ==> r.value == collectionView.view.messagesLayoutDelegate.value.footerViewSize(section)
  {
    match collectionView
    case ForeignCollectionView => Failure(NotMessagesCollectionView)
    case MessagesView(view) =>
      match view.messagesLayoutDelegate
      case None => Failure(NilMessagesLayoutDelegate)
      case Some(layoutDelegate) => Success(layoutDelegate.footerViewSize(section))
  }

  /** `sizeForItemAt`: zero for a foreign layout, otherwise whatever the
      messages layout's `sizeForItem(at:)` answers. */
  method SizeForItemAt(collectionViewLayout: LayoutArgument, indexPath: IndexPath, oracle: SizingOracle) returns (r: Result<Size>)
    ensures collectionViewLayout.OtherLayout? ==> r == Success(ZeroSize)
    ensures collectionViewLayout.MessagesFlowLayout? ==>
      match collectionViewLayout.layout.CellSizeCalculatorForItem(indexPath)
      case Success(c) => r == Success(oracle.sizeForItem(c.family, c.style, indexPath))
      case Failure(e) => r == Failure(e)
  {
    if collectionViewLayout.OtherLayout? {
      return Success(ZeroSize);
    }
    r := collectionViewLayout.layout.SizeForItem(indexPath, oracle);
  }

  /** The controller state the menu callbacks touch. */
  class MessagesViewController {
    var messagesCollectionView: MessagesCollectionView
    var selectedIndexPathForMenu: Option<IndexPath>
    /** The general pasteboard's last write. */
    var pasteboard: Option<Payload>

    constructor (messagesCollectionView: MessagesCollectionView)
      ensures this.messagesCollectionView == messagesCollectionView
      ensures selectedIndexPathForMenu == None && pasteboard == None
    {
      this.messagesCollectionView := messagesCollectionView;
      selectedIndexPathForMenu := None;
      pasteboard := None;
    }

    /** `shouldShowMenuForItemAt`: without a data source, no menu and no
        change; otherwise a menu, recording the index path, exactly for the
        kinds that can be copied. */
    method ShouldShowMenuForItemAt(indexPath: IndexPath) returns (show: bool)
      modifies this`selectedIndexPathForMenu
      ensures messagesCollectionView.messagesDataSource.None? ==> !show
      ensures show <==> (messagesCollectionView.messagesDataSource.Some?
        && ShowsMenu(messagesCollectionView.messagesDataSource.value.messageForItem(indexPath).kind))
      ensures show ==> selectedIndexPathForMenu == Some(indexPath)
      ensures !show ==> selectedIndexPathForMenu == old(selectedIndexPathForMenu)
    {
      if messagesCollectionView.messagesDataSource.None? {
        return false;
      }
      var message := messagesCollectionView.messagesDataSource.value.messageForItem(indexPath);
      match message.kind {
        case Text(_) =>
          selectedIndexPathForMenu := Some(indexPath);
          show := true;
        case AttributedText(_) =>
          selectedIndexPathForMenu := Some(indexPath);
          show := true;
        case Emoji(_) =>
          selectedIndexPathForMenu := Some(indexPath);
          show := true;
        case Photo(_) =>
          selectedIndexPathForMenu := Some(indexPath);
          show := true;
        case _ =>
          show := false;
      }
    }

    /** `performAction`: fatal without a data source; otherwise the copy
        payload of the message's kind goes to the pasteboard, and a kind
        without one writes nothing. */
    method PerformAction(action: string, indexPath: IndexPath) returns (outcome: Outcome)
      modifies this`pasteboard
      ensures messagesCollectionView.messagesDataSource.None? ==>
        outcome == Fatal(NilMessagesDataSource) && pasteboard == old(pasteboard)
      ensures messagesCollectionView.messagesDataSource.Some? ==>
        var payload := CopyPayload(messagesCollectionView.messagesDataSource.value.messageForItem(indexPath).kind);
        outcome == Done && pasteboard == (if payload.Some? then payload else old(pasteboard))
    {
      if messagesCollectionView.messagesDataSource.None? {
        return Fatal(NilMessagesDataSource);
      }
      var message := messagesCollectionView.messagesDataSource.value.messageForItem(indexPath);
      match message.kind {
        case Text(text) => pasteboard := Some(StringPayload(text));
        case Emoji(text) => pasteboard := Some(StringPayload(text));
        case AttributedText(attributedText) => pasteboard := Some(StringPayload(attributedText.plainString));
        case Photo(mediaItem) => pasteboard := Some(ImagePayload(mediaItem.image.GetOr(mediaItem.placeholderImage)));
        case _ =>
      }
      outcome := Done;
    }
  }
}
